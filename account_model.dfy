/** The request-body validators of the account module
    (src/app/module/account/account.model.ts): one object schema per endpoint,
    each checked with validateSchema. */
module AccountModel {
  import opened Common
  import opened Validator

  const REGISTER_SCHEMA := ObjectSchema([
    Property("email", StringSchema(0, Some(EmailFormat)), false),
    Property("password", StringSchema(0, Some(PasswordFormat)), false),
    Property("first_name", StringSchema(2, None), false),
    Property("last_name", StringSchema(2, None), false)])

  const LOGIN_SCHEMA := ObjectSchema([
    Property("email", StringSchema(0, Some(EmailFormat)), false),
    Property("password", StringSchema(0, Some(PasswordFormat)), false)])

  const UPDATE_PROFILE_SCHEMA := ObjectSchema([
    Property("first_name", StringSchema(2, None), true),
    Property("last_name", StringSchema(2, None), true),
    Property("email", StringSchema(0, Some(EmailFormat)), true),
    Property("title", StringSchema(0, None), true),
    Property("phone", StringSchema(0, None), true),
    Property("picture", StringSchema(0, None), true)])

  const CHANGE_PASSWORD_SCHEMA := ObjectSchema([
    Property("email", StringSchema(0, Some(EmailFormat)), false),
    Property("password", StringSchema(0, Some(PasswordFormat)), false),
    Property("token", StringSchema(0, None), false)])

  const NEW_PASSWORD_SCHEMA := ObjectSchema([
    Property("current", StringSchema(0, Some(PasswordFormat)), false),
    Property("new", StringSchema(0, Some(PasswordFormat)), false)])

  const CHANGE_EMAIL_SCHEMA := ObjectSchema([
    Property("current", StringSchema(0, Some(EmailFormat)), false),
    Property("new", StringSchema(0, Some(EmailFormat)), false),
    Property("password", StringSchema(0, Some(PasswordFormat)), false),
    Property("redirect", StringSchema(0, None), false),
    Property("errorRedirect", StringSchema(0, None), false)])

  /** An optional field: absent, or a string of at least `minLength` characters. */
  predicate OptionalStringAt(fields: map<string, Json>, name: string, minLength: nat) {
    name !in fields || StringAt(fields, name, minLength)
  }

  /** `register(data).validate()`: no message exactly when the body is an object
      with an email, a password, and first and last names of two or more
      characters. */
  function Register(data: Json): (messages: seq<string>)
    ensures messages == [] <==> (data.JObj?
      && EmailAt(data.fields, "email") && PasswordAt(data.fields, "password")
      && StringAt(data.fields, "first_name", 2) && StringAt(data.fields, "last_name", 2))
  {
    RegisterMatches(data);
    ValidateSchema(REGISTER_SCHEMA, data)
  }

  /** `login(data).validate()`: no message exactly when the body has an email and
      a password. */
  function Login(data: Json): (messages: seq<string>)
    ensures messages == [] <==> (data.JObj?
      && EmailAt(data.fields, "email") && PasswordAt(data.fields, "password"))
  {
    var ps := LOGIN_SCHEMA.properties;
    assert ps[0].name == "email" && ps[1].name == "password";
    ValidateSchema(LOGIN_SCHEMA, data)
  }

  /** `updateProfile(data).validate()`: every field is optional; the ones present
      must be strings, the names of two or more characters, the email an email. */
  function UpdateProfile(data: Json): (messages: seq<string>)
    ensures messages == [] <==> (data.JObj?
      && OptionalStringAt(data.fields, "first_name", 2) && OptionalStringAt(data.fields, "last_name", 2)
      && ("email" in data.fields ==> EmailAt(data.fields, "email"))
      && OptionalStringAt(data.fields, "title", 0) && OptionalStringAt(data.fields, "phone", 0)
      && OptionalStringAt(data.fields, "picture", 0))
  {
    UpdateProfileMatches(data);
    ValidateSchema(UPDATE_PROFILE_SCHEMA, data)
  }

  /** `changePassword(data).validate()`: an email, a new password and a token string. */
  function ChangePassword(data: Json): (messages: seq<string>)
    ensures messages == [] <==> (data.JObj?
      && EmailAt(data.fields, "email") && PasswordAt(data.fields, "password")
      && StringAt(data.fields, "token", 0))
  {
    ChangePasswordMatches(data);
    ValidateSchema(CHANGE_PASSWORD_SCHEMA, data)
  }

  /** `newPassword(data).validate()`: the current and the new password, both in
      the password format. */
  function NewPassword(data: Json): (messages: seq<string>)
    ensures messages == [] <==> (data.JObj?
      && PasswordAt(data.fields, "current") && PasswordAt(data.fields, "new"))
  {
    var ps := NEW_PASSWORD_SCHEMA.properties;
    assert ps[0].name == "current" && ps[1].name == "new";
    ValidateSchema(NEW_PASSWORD_SCHEMA, data)
  }

  /** `changeEmail(data).validate()`: the current and the new email, the password,
      and the two redirect strings. */
  function ChangeEmail(data: Json): (messages: seq<string>)
    ensures messages == [] <==> (data.JObj?
      && EmailAt(data.fields, "current") && EmailAt(data.fields, "new")
      && PasswordAt(data.fields, "password")
      && StringAt(data.fields, "redirect", 0) && StringAt(data.fields, "errorRedirect", 0))
  {
    ChangeEmailMatches(data);
    ValidateSchema(CHANGE_EMAIL_SCHEMA, data)
  }

  /** The address `<uuid>@mail` of the tests has no dot after its `@`. */
  lemma HostWithoutDot(uuid: string)
    ensures !Email(uuid + "@mail")
  {
    EmailNeedsDotInHost(uuid, "mail");
    assert uuid + "@" + "mail" == uuid + "@mail";
  }

  lemma RegisterMatches(data: Json)
    ensures Matches(REGISTER_SCHEMA, data) <==> (data.JObj?
      && EmailAt(data.fields, "email") && PasswordAt(data.fields, "password")
      && StringAt(data.fields, "first_name", 2) && StringAt(data.fields, "last_name", 2))
  {
    var ps := REGISTER_SCHEMA.properties;
    if data.JObj? {
      var f := data.fields;
      assert PropertyMatches(ps[0], f) <==> EmailAt(f, "email");
      assert PropertyMatches(ps[1], f) <==> PasswordAt(f, "password");
      assert PropertyMatches(ps[2], f) <==> StringAt(f, "first_name", 2);
      assert PropertyMatches(ps[3], f) <==> StringAt(f, "last_name", 2);
    }
  }

  lemma UpdateProfileMatches(data: Json)
    ensures Matches(UPDATE_PROFILE_SCHEMA, data) <==> (data.JObj?
      && OptionalStringAt(data.fields, "first_name", 2) && OptionalStringAt(data.fields, "last_name", 2)
      && ("email" in data.fields ==> EmailAt(data.fields, "email"))
      && OptionalStringAt(data.fields, "title", 0) && OptionalStringAt(data.fields, "phone", 0)
      && OptionalStringAt(data.fields, "picture", 0))
  {
    var ps := UPDATE_PROFILE_SCHEMA.properties;
    if data.JObj? {
      var f := data.fields;
      assert PropertyMatches(ps[0], f) <==> OptionalStringAt(f, "first_name", 2);
      assert PropertyMatches(ps[1], f) <==> OptionalStringAt(f, "last_name", 2);
      assert PropertyMatches(ps[2], f) <==> ("email" in f ==> EmailAt(f, "email"));
      assert PropertyMatches(ps[3], f) <==> OptionalStringAt(f, "title", 0);
      assert PropertyMatches(ps[4], f) <==> OptionalStringAt(f, "phone", 0);
      assert PropertyMatches(ps[5], f) <==> OptionalStringAt(f, "picture", 0);
    }
  }

  lemma ChangePasswordMatches(data: Json)
    ensures Matches(CHANGE_PASSWORD_SCHEMA, data) <==> (data.JObj?
      && EmailAt(data.fields, "email") && PasswordAt(data.fields, "password")
      && StringAt(data.fields, "token", 0))
  {
    var ps := CHANGE_PASSWORD_SCHEMA.properties;
    if data.JObj? {
      var f := data.fields;
      assert PropertyMatches(ps[0], f) <==> EmailAt(f, "email");
      assert PropertyMatches(ps[1], f) <==> PasswordAt(f, "password");
      assert PropertyMatches(ps[2], f) <==> StringAt(f, "token", 0);
    }
  }

  lemma ChangeEmailMatches(data: Json)
    ensures Matches(CHANGE_EMAIL_SCHEMA, data) <==> (data.JObj?
      && EmailAt(data.fields, "current") && EmailAt(data.fields, "new")
      && PasswordAt(data.fields, "password")
      && StringAt(data.fields, "redirect", 0) && StringAt(data.fields, "errorRedirect", 0))
  {
    var ps := CHANGE_EMAIL_SCHEMA.properties;
    if data.JObj? {
      var f := data.fields;
      assert PropertyMatches(ps[0], f) <==> EmailAt(f, "current");
      assert PropertyMatches(ps[1], f) <==> EmailAt(f, "new");
      assert PropertyMatches(ps[2], f) <==> PasswordAt(f, "password");
      assert PropertyMatches(ps[3], f) <==> StringAt(f, "redirect", 0);
      assert PropertyMatches(ps[4], f) <==> StringAt(f, "errorRedirect", 0);
    }
  }

  /** A body with these four string fields. */
  function RegisterBody(email: string, password: string, firstName: string, lastName: string): Json {
    JObj(map["email" := JStr(email), "password" := JStr(password),
             "first_name" := JStr(firstName), "last_name" := JStr(lastName)])
  }

  /** The accepted registration of the account tests. */
  lemma RegisterTestAccepted()
    ensures Register(RegisterBody("testing@email.com", "12345Abc", "John", "Doe")) == []
  {
    var body := RegisterBody("testing@email.com", "12345Abc", "John", "Doe");
    RegisterBodyFields("testing@email.com", "12345Abc", "John", "Doe");
    EmailTestCase();
    PasswordLengthBounds("");
    assert EmailAt(body.fields, "email") && PasswordAt(body.fields, "password");
    assert StringAt(body.fields, "first_name", 2) && StringAt(body.fields, "last_name", 2);
  }

  lemma RegisterBodyFields(email: string, password: string, firstName: string, lastName: string)
    ensures var f := RegisterBody(email, password, firstName, lastName).fields;
      "email" in f && f["email"] == JStr(email) && "password" in f && f["password"] == JStr(password)
      && "first_name" in f && f["first_name"] == JStr(firstName) && "last_name" in f && f["last_name"] == JStr(lastName)
  {
  }

  /** The rejected registrations of the account tests: an address whose host has
      no dot (`<uuid>@mail`), empty names, and the passwords `''`, `abcdefgh`
      and `12345678`. */
  lemma RegisterTestsRejected(uuid: string)
    ensures Register(RegisterBody(uuid + "@mail", "12345Abc", "John", "Doe")) != []
    ensures Register(RegisterBody("testing@email.com", "12345Abc", "", "")) != []
    ensures Register(RegisterBody("testing@email.com", "", "John", "Doe")) != []
    ensures Register(RegisterBody("testing@email.com", "abcdefgh", "John", "Doe")) != []
    ensures Register(RegisterBody("testing@email.com", "12345678", "John", "Doe")) != []
  {
    HostWithoutDot(uuid);
    RegisterBodyFields(uuid + "@mail", "12345Abc", "John", "Doe");
    RegisterBodyFields("testing@email.com", "12345Abc", "", "");
    PasswordTestCases();
    RegisterBodyFields("testing@email.com", "", "John", "Doe");
    RegisterBodyFields("testing@email.com", "abcdefgh", "John", "Doe");
    RegisterBodyFields("testing@email.com", "12345678", "John", "Doe");
  }

  /** A body with an email and a password. */
  function LoginBody(email: string, password: string): Json {
    JObj(map["email" := JStr(email), "password" := JStr(password)])
  }

  lemma LoginBodyFields(email: string, password: string)
    ensures var f := LoginBody(email, password).fields;
      "email" in f && f["email"] == JStr(email) && "password" in f && f["password"] == JStr(password)
  {
  }

  /** The login tests: the same address and password are accepted; the host
      without a dot and the three bad passwords are not. */
  lemma LoginTestCases(uuid: string)
    ensures Login(LoginBody("testing@email.com", "12345Abc")) == []
    ensures Login(LoginBody(uuid + "@mail", "12345Abc")) != []
    ensures Login(LoginBody("testing@email.com", "")) != []
    ensures Login(LoginBody("testing@email.com", "abcdefgh")) != []
    ensures Login(LoginBody("testing@email.com", "12345678")) != []
  {
    var ok := LoginBody("testing@email.com", "12345Abc");
    LoginBodyFields("testing@email.com", "12345Abc");
    EmailTestCase();
    PasswordLengthBounds("");
    assert EmailAt(ok.fields, "email") && PasswordAt(ok.fields, "password");
    HostWithoutDot(uuid);
    LoginBodyFields(uuid + "@mail", "12345Abc");
    PasswordTestCases();
    LoginBodyFields("testing@email.com", "");
    LoginBodyFields("testing@email.com", "abcdefgh");
    LoginBodyFields("testing@email.com", "12345678");
  }

  /** An empty profile update is valid; a phone that is not a string is not. */
  lemma UpdateProfileCases()
    ensures UpdateProfile(JObj(map[])) == []
    ensures UpdateProfile(JObj(map["phone" := JBool(true)])) != []
  {
  }

  /** A body without any field is refused first for its missing email. */
  lemma RegisterEmptyBodyMessage()
    ensures Register(JObj(map[]))[0] == "Expected required property of /email"
  {
    var errors := Errors(REGISTER_SCHEMA, JObj(map[]));
    assert errors[0] == ValueError(RequiredProperty, "/email");
  }
}

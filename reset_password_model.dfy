/** The request-body validator of the reset-password endpoint
    (src/app/module/account/reset-password/reset-password.model.ts). */
module ResetPasswordModel {
  import opened Common
  import opened Validator

  const RESET_PASSWORD_SCHEMA := ObjectSchema([
    Property("email", StringSchema(0, Some(EmailFormat)), false),
    Property("redirect", StringSchema(0, None), false)])

  /** `resetPassword(data).validate()`: no message exactly when the body has an
      email and a redirect string. */
  function ResetPassword(data: Json): (messages: seq<string>)
    ensures messages == [] <==> (data.JObj?
      && EmailAt(data.fields, "email") && StringAt(data.fields, "redirect", 0))
  {
    var ps := RESET_PASSWORD_SCHEMA.properties;
    assert ps[0].name == "email" && ps[1].name == "redirect";
    ValidateSchema(RESET_PASSWORD_SCHEMA, data)
  }

  /** The redirect has no length bound: any string is accepted with a valid email,
      the empty one included. */
  lemma AnyRedirectAccepted(email: string, redirect: string)
    requires Email(email)
    ensures ResetPassword(JObj(map["email" := JStr(email), "redirect" := JStr(redirect)])) == []
    ensures ResetPassword(JObj(map["email" := JStr(email), "redirect" := JStr("")])) == []
  {
  }

  /** A missing or non-string redirect, or an email in the wrong format, is
      reported. */
  lemma RejectedBodies(email: string, redirect: Json)
    ensures ResetPassword(JObj(map["email" := JStr(email)])) != []
    ensures !redirect.JStr? ==> ResetPassword(JObj(map["email" := JStr(email), "redirect" := redirect])) != []
    ensures !Email(email) ==> ResetPassword(JObj(map["email" := JStr(email), "redirect" := redirect])) != []
  {
  }

  /** Only the two declared fields matter: other fields of the body are ignored. */
  lemma ExtraFieldsIgnored(data: Json, name: string, value: Json)
    requires data.JObj? && name != "email" && name != "redirect"
    ensures ResetPassword(JObj(data.fields[name := value])) == [] <==> ResetPassword(data) == []
  {
  }
}

/** The validation middleware (src/app/middleware/validator.ts) and the
    `BadRequest` answer it sends (src/app/middleware/typeable.ts). */
module ValidatorMiddleware {
  import opened Common
  import opened Validator
  import AccountModel

  /** An HTTP answer: a status and the `message` of its JSON body. */
  datatype Response = Response(status: nat, message: string)

  /** What the middleware does with a request: pass it on, or answer it. */
  datatype Outcome = Next | Sent(response: Response)

  const DEFAULT_BAD_REQUEST_MESSAGE := "Bad request"

  /** `res.BadRequest(message)`: status 400, the message or its default. */
  function BadRequest(message: Option<string>): (r: Response)
    ensures r.status == 400
    ensures message.Some? ==> r.message == message.value
    ensures message.None? ==> r.message == DEFAULT_BAD_REQUEST_MESSAGE
  {
    Response(400, message.GetOr(DEFAULT_BAD_REQUEST_MESSAGE))
  }

  /** `validate(validator)` applied to a request body: it calls `next` exactly
      when the validator gives no message, and otherwise answers 400 with the
      first message. */
  function Validate(validator: Json -> seq<string>, body: Json): (outcome: Outcome)
    ensures outcome.Next? <==> validator(body) == []
    ensures outcome.Sent? ==> outcome.response == Response(400, validator(body)[0])
  {
    var messages := validator(body);
    if |messages| == 0 then Next else Sent(BadRequest(Some(messages[0])))
  }

  /** The registration route answers an empty body with its first complaint. */
  lemma EmptyRegisterBody()
    ensures Validate(AccountModel.Register, JObj(map[])) ==
      Sent(Response(400, "Expected required property of /email"))
  {
    AccountModel.RegisterEmptyBodyMessage();
  }

  /** A body that is not an object is refused whatever the schema. */
  lemma NonObjectBody(validator: Json -> seq<string>, schema: ObjectSchema, body: Json)
    requires forall d :: validator(d) == ValidateSchema(schema, d)
    requires !body.JObj?
    ensures Validate(validator, body) == Sent(Response(400, "Expected object of "))
  {
    assert Errors(schema, body) == [ValueError(ExpectedObject, "")];
  }
}

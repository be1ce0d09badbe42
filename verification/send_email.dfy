/**
 The decision procedure of the `send-email` request handler: a request goes
 through the preflight and method checks, field validation, the credentials
 check, connection verification and finally the send, and leaves at the first
 step that fails. The SMTP transport is an oracle: the outcome of `verify` and
 the outcome of `sendMail` for each mail are inputs, and the handler's outcome
 records which transport calls it made.
 */
module SendEmail {
  import opened JsStrings
  import opened EmailTemplate

  /** The parsed request body: an object, or `undefined`/`null`. */
  datatype RequestBody = NoBody | Json(payload: Payload)

  datatype Request = Request(httpMethod: Str, body: RequestBody)

  /** The credentials read from the environment (`ZOHO_EMAIL`, `ZOHO_PASSWORD`). */
  datatype Env = Env(zohoEmail: Field, zohoPassword: Field)

  datatype VerifyResult = Verified | VerifyFailed(message: Field)

  datatype SendResult = Delivered(messageId: Field) | SendFailed(message: Field)

  /** What the SMTP server will answer: to `verify`, and to `sendMail` of each mail. */
  datatype Transport = Transport(verify: VerifyResult, send: Mail -> SendResult)

  /** The transport calls the handler makes, in order. */
  datatype Call = CreateTransport(user: Str, pass: Str) | VerifyConnection | SendMail(mail: Mail)

  /** The `details` of an error response: a message (possibly `undefined`),
      or the TypeError the runtime raises when destructuring a missing body. */
  datatype Detail = Text(text: Field) | BodyNotAnObject

  /** The JSON body of the response. */
  datatype Body =
      /** No body: the preflight answer ends the response. */
    | Empty
      /** `{ error }` */
    | Error(error: Str)
      /** `{ error, details }` */
    | ErrorWithDetails(error: Str, details: Detail)
      /** `{ success: true, message, messageId }`; the constant `success: true` is implied by the constructor. */
    | Sent(message: Str, messageId: Field)

  /** The step at which the handler returned. */
  datatype Phase = Preflight | MethodCheck | Destructuring | Validating | Configuring | Verifying | Sending | Completed

  datatype Outcome = Outcome(status: int, body: Body, calls: seq<Call>, phase: Phase)

  const MethodNotAllowed: Str := Lit("Method not allowed")
  const FieldsRequired: Str := Lit("Title and content are required")
  const NotConfigured: Str := Lit("Email service not configured")
  /** "Check ZOHO_EMAIL and ZOHO_PASSWORD environment variables". It is written
      as two literals because `Lit`'s precondition is checked character by
      character, and the verifier discharges it for the shorter halves. */
  const ConfigHint: Str := Lit("Check ZOHO_EMAIL and ZOHO_PASSWORD ") + Lit("environment variables")
  const ConnectionFailed: Str := Lit("SMTP connection failed")
  const SendingFailed: Str := Lit("Failed to send email")
  const SentMessage: Str := Lit("Email sent successfully")

  predicate Valid(p: Payload) {
    Truthy(p.title) && Truthy(p.content)
  }

  predicate Configured(env: Env) {
    Truthy(env.zohoEmail) && Truthy(env.zohoPassword)
  }

  predicate SendAttempted(o: Outcome) {
    exists k | 0 <= k < |o.calls| :: o.calls[k].SendMail?
  }

  /** The transport calls form a prefix of create, verify, send: the transport
      is never created without being verified, and nothing is sent unverified. */
  predicate CallsInOrder(calls: seq<Call>) {
    && |calls| in {0, 2, 3}
    && (|calls| >= 2 ==> calls[0].CreateTransport? && calls[1].VerifyConnection?)
    && (|calls| == 3 ==> calls[2].SendMail?)
  }

  function Handle(req: Request, env: Env, transport: Transport): (r: Outcome)
    ensures r.status in {200, 400, 405, 500}
    ensures CallsInOrder(r.calls)
    ensures r.calls == [] <==> r.phase !in {Verifying, Sending, Completed}
    ensures SendAttempted(r) <==>
              && req.httpMethod == Lit("POST")
              && req.body.Json? && Valid(req.body.payload)
              && Configured(env)
              && transport.verify.Verified?
    ensures r.status == 200 <==> r.phase in {Preflight, Completed}
    ensures r.status == 405 <==> req.httpMethod != Lit("OPTIONS") && req.httpMethod != Lit("POST")
    ensures r.status == 400 <==> req.httpMethod == Lit("POST") && req.body.Json? && !Valid(req.body.payload)
    ensures r.phase == Configuring <==>
              req.httpMethod == Lit("POST") && req.body.Json? && Valid(req.body.payload) && !Configured(env)
    ensures r.phase == Completed <==> SendAttempted(r) && transport.send(r.calls[2].mail).Delivered?
  {
    if req.httpMethod == Lit("OPTIONS") then
      Outcome(200, Empty, [], Preflight)
    else if req.httpMethod != Lit("POST") then
      Outcome(405, Error(MethodNotAllowed), [], MethodCheck)
    else match req.body
      case NoBody =>
        Outcome(500, ErrorWithDetails(SendingFailed, BodyNotAnObject), [], Destructuring)
      case Json(p) =>
        if !Valid(p) then
          Outcome(400, Error(FieldsRequired), [], Validating)
        else if !Configured(env) then
          Outcome(500, ErrorWithDetails(NotConfigured, Text(Present(ConfigHint))), [], Configuring)
        else
          var connected := [CreateTransport(env.zohoEmail.s, env.zohoPassword.s), VerifyConnection];
          match transport.verify
          case VerifyFailed(message) =>
            Outcome(500, ErrorWithDetails(ConnectionFailed, Text(message)), connected, Verifying)
          case Verified =>
            var mail := ComposeMail(p, env.zohoEmail.s);
            var calls := connected + [SendMail(mail)];
            match transport.send(mail)
            case SendFailed(message) =>
              Outcome(500, ErrorWithDetails(SendingFailed, Text(message)), calls, Sending)
            case Delivered(messageId) =>
              Outcome(200, Sent(SentMessage, messageId), calls, Completed)
  }

  // ---------------------------------------------------------------------------
  // The early exits

  /** A preflight request is answered 200 with an empty body, whatever the
      configuration and the transport. */
  lemma PreflightAnswered(req: Request, env: Env, t: Transport, env': Env, t': Transport)
    requires req.httpMethod == Lit("OPTIONS")
    ensures Handle(req, env, t) == Outcome(200, Empty, [], Preflight)
    ensures Handle(req, env', t') == Handle(req, env, t)
  {
  }

  /** Methods other than OPTIONS and POST are refused with 405 before anything else. */
  lemma OtherMethodsRefused(req: Request, env: Env, t: Transport, env': Env, t': Transport)
    requires req.httpMethod != Lit("OPTIONS") && req.httpMethod != Lit("POST")
    ensures Handle(req, env, t) == Outcome(405, Error(MethodNotAllowed), [], MethodCheck)
    ensures Handle(req, env', t') == Handle(req, env, t)
  {
  }

  /** A POST without a body object fails while destructuring it and reaches
      the catch-all answer, without touching the transport. */
  lemma MissingBodyCaught(req: Request, env: Env, t: Transport)
    requires req.httpMethod == Lit("POST") && req.body == NoBody
    ensures Handle(req, env, t).status == 500
    ensures Handle(req, env, t).body == ErrorWithDetails(SendingFailed, BodyNotAnObject)
    ensures Handle(req, env, t).calls == []
  {
  }

  /** A POST whose title or content is falsy is refused with 400; the
      configuration is not consulted and no transport is created. */
  lemma MissingFieldsRefused(req: Request, env: Env, t: Transport, env': Env, t': Transport)
    requires req.httpMethod == Lit("POST") && req.body.Json? && !Valid(req.body.payload)
    ensures Handle(req, env, t) == Outcome(400, Error(FieldsRequired), [], Validating)
    ensures Handle(req, env', t') == Handle(req, env, t)
  {
  }

  /** With valid fields but a missing credential the answer is 500 "not
      configured", whatever the transport would have done. */
  lemma UnconfiguredRefused(req: Request, env: Env, t: Transport, t': Transport)
    requires req.httpMethod == Lit("POST") && req.body.Json? && Valid(req.body.payload)
    requires !Configured(env)
    ensures Handle(req, env, t)
         == Outcome(500, ErrorWithDetails(NotConfigured, Text(Present(ConfigHint))), [], Configuring)
    ensures Handle(req, env, t') == Handle(req, env, t)
  {
  }

  /** A failed connection check is reported with the verify error's message,
      and `sendMail` is never called. */
  lemma VerifyFailureNeverSends(req: Request, env: Env, t: Transport)
    requires req.httpMethod == Lit("POST") && req.body.Json? && Valid(req.body.payload)
    requires Configured(env) && t.verify.VerifyFailed?
    ensures Handle(req, env, t).status == 500
    ensures Handle(req, env, t).body == ErrorWithDetails(ConnectionFailed, Text(t.verify.message))
    ensures Handle(req, env, t).calls
         == [CreateTransport(env.zohoEmail.s, env.zohoPassword.s), VerifyConnection]
    ensures !SendAttempted(Handle(req, env, t))
  {
  }

  // ---------------------------------------------------------------------------
  // The send

  /** Once verified, exactly one mail is sent: to the two operator addresses,
      with the truncated subject, from the configured account. The answer is
      200 with the transport's message id when it is accepted, and 500 with the
      transport's error message when it is not. */
  lemma SendOutcome(req: Request, env: Env, t: Transport)
    requires req.httpMethod == Lit("POST") && req.body.Json? && Valid(req.body.payload)
    requires Configured(env) && t.verify.Verified?
    ensures var o := Handle(req, env, t);
      && |o.calls| == 3
      && var m := o.calls[2].mail;
      && m == ComposeMail(req.body.payload, env.zohoEmail.s)
      && m.to == Recipients
      && m.from == SenderAddress(env.zohoEmail.s)
      && m.subject == Subject(req.body.payload.title.s)
      && (t.send(m).Delivered? ==> o.status == 200 && o.body == Sent(SentMessage, t.send(m).messageId))
      && (t.send(m).SendFailed? ==> o.status == 500 && o.body == ErrorWithDetails(SendingFailed, Text(t.send(m).message)))
  {
  }
}

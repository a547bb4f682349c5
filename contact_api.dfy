/** The `POST /api/contact` handler of the mail relay (index.js lines 42-135),
    as a function from the request body's fields and the outcome of the one
    email send to the response and the send request that was made. */
module ContactApi {
  import opened Options
  import opened JsText

  const FromAddress: string := "onboarding@resend.dev"
  const ToAddress: string := "heetchovatiya711@gmail.com"
  const SubjectPrefix: string := "New Contact Form Submission from: "

  const MissingFields: string := "All fields (name, email, message) are required."
  const SendFailed: string := "Failed to send email."
  const Unexpected: string := "An unexpected error occurred on the server."
  const Sent: string := "Email sent successfully! Thank you for your message."

  /** One field of the JSON body: absent, or a string. */
  datatype Field = Absent | Text(value: string)

  /** `!field`: absent fields and empty strings are falsy. */
  predicate Falsy(f: Field) {
    f.Absent? || f.value == ""
  }

  /** The parts of the send request the handler fills from the body (the
      HTML body is not modelled). */
  datatype SendRequest = SendRequest(from: string, to: string, subject: string, replyTo: string)

  /** What `resend.emails.send` did: delivered, reported an error with a
      message, or threw. */
  datatype SendOutcome = Delivered | Reported(message: string) | Threw

  datatype Body = ErrorBody(error: string) | ErrorWithDetails(error: string, details: string) | MessageBody(message: string)

  datatype Response = Response(status: int, body: Body)

  /** The send request made, if any, and the response returned. */
  datatype Handled = Handled(sent: Option<SendRequest>, response: Response)

  /** The handler. `outcome` is what the send would yield; it is consulted
      only when a send is made. */
  function HandleContact(name: Field, email: Field, message: Field, outcome: SendOutcome): (h: Handled)
    ensures h.sent.None? <==> Falsy(name) || Falsy(email) || Falsy(message)
    ensures h.sent.None? ==> h.response == Response(400, ErrorBody(MissingFields))
    ensures h.sent.Some? ==>
      && h.sent.value.from == FromAddress && h.sent.value.to == ToAddress
      && h.sent.value.subject == SubjectPrefix + name.value
      && h.sent.value.replyTo == email.value
    ensures h.sent.Some? && outcome.Delivered? ==> h.response == Response(200, MessageBody(Sent))
    ensures h.sent.Some? && outcome.Reported? ==>
      h.response == Response(500, ErrorWithDetails(SendFailed, outcome.message))
    ensures h.sent.Some? && outcome.Threw? ==> h.response == Response(500, ErrorBody(Unexpected))
  {
    if Falsy(name) || Falsy(email) || Falsy(message) then
      Handled(None, Response(400, ErrorBody(MissingFields)))
    else
      var request := SendRequest(FromAddress, ToAddress, SubjectPrefix + name.value, email.value);
      var response := match outcome
        case Delivered => Response(200, MessageBody(Sent))
        case Reported(m) => Response(500, ErrorWithDetails(SendFailed, m))
        case Threw => Response(500, ErrorBody(Unexpected));
      Handled(Some(request), response)
  }

  /** The status alone tells the three paths apart: 400 exactly when a field
      is falsy, 200 exactly when the send was made and delivered, and 500
      exactly when it was made and failed, either way. */
  lemma StatusClassifies(name: Field, email: Field, message: Field, outcome: SendOutcome)
    ensures var h := HandleContact(name, email, message, outcome);
      && (h.response.status == 400 <==> h.sent.None?)
      && (h.response.status == 200 <==> h.sent.Some? && outcome.Delivered?)
      && (h.response.status == 500 <==> h.sent.Some? && !outcome.Delivered?)
      && (h.response.status == 200 <==> h.response.body.MessageBody?)
  {
  }

  /** The subject names the sender: stripping the fixed prefix gives back
      the `name` field, and `reply_to` is the `email` field. */
  lemma {:induction false} SubjectRoundTrip(name: string, email: string, message: string, outcome: SendOutcome)
    requires name != "" && email != "" && message != ""
    ensures var h := HandleContact(Text(name), Text(email), Text(message), outcome);
      && h.sent.Some?
      && |h.sent.value.subject| == |SubjectPrefix| + |name|
      && h.sent.value.subject[..|SubjectPrefix|] == SubjectPrefix
      && h.sent.value.subject[|SubjectPrefix|..] == name
      && h.sent.value.replyTo == email
  {
    var s := SubjectPrefix + name;
    assert s[|SubjectPrefix|..] == name;
  }

  /** The check is for falsiness, not blankness: fields made only of
      whitespace are accepted and sent, whatever that whitespace is. */
  lemma WhitespaceAccepted(name: string, email: string, message: string, outcome: SendOutcome)
    requires name != "" && AllWhitespace(name)
    requires email != "" && AllWhitespace(email)
    requires message != "" && AllWhitespace(message)
    ensures HandleContact(Text(name), Text(email), Text(message), outcome).sent.Some?
    ensures HandleContact(Text(name), Text(email), Text(message), outcome).response.status != 400
  {
  }

  /** A missing or empty field is rejected whatever the send would do. */
  lemma MissingFieldRejected(name: Field, email: Field, message: Field, o1: SendOutcome, o2: SendOutcome)
    requires Falsy(name) || Falsy(email) || Falsy(message)
    ensures HandleContact(name, email, message, o1) == HandleContact(name, email, message, o2)
    ensures HandleContact(name, email, message, o1).response.status == 400
  {
  }
}

/**
 * The decision logic of supabase/functions/send-lead-notification/index.ts:
 * the CORS preflight, the provider-key guard, the fields of the operator
 * e-mail with their fallbacks, its subject, and the response chosen from
 * the e-mail provider's answer. The provider call is a parameter.
 */
module LeadNotification {
  import opened Wrappers
  import opened Js

  /** The JSON body the function expects; nullable fields are None for `null`. */
  datatype NotificationRequest = NotificationRequest(
    contact_name: Option<string>,
    email: string,
    company_name: Option<string>,
    phone: Option<string>,
    message: Option<string>,
    source: string,
    language: string,
    nb_users_estimate: Option<string>)

  const NotProvided: string := "Non renseigné"
  const PrivatePerson: string := "Particulier"
  const Recipient: string := "info@tekio.be"
  const Sender: string := "Tekio Leads <onboarding@resend.dev>"
  const SubjectPrefix: string := "\U{1F3AF} Nouveau lead: "

  /** The cells of the e-mail's contact table, and the message block when there is one. */
  datatype EmailContent = EmailContent(
    name: string,
    email: string,
    company: string,
    phone: string,
    employees: string,
    source: string,
    language: string,
    messageBlock: Option<string>)

  /** Name, company, phone and employee count fall back to 'Non renseigné'; the message block appears only for a truthy message. */
  function Content(lead: NotificationRequest): (c: EmailContent)
    ensures c.name == (if Present(lead.contact_name) then lead.contact_name.value else NotProvided)
    ensures c.company == (if Present(lead.company_name) then lead.company_name.value else NotProvided)
    ensures c.phone == (if Present(lead.phone) then lead.phone.value else NotProvided)
    ensures c.employees == (if Present(lead.nb_users_estimate) then lead.nb_users_estimate.value else NotProvided)
    ensures c.email == lead.email && c.source == lead.source && c.language == lead.language
    ensures c.messageBlock.Some? <==> Present(lead.message)
    ensures c.messageBlock.Some? ==> c.messageBlock == lead.message
  {
    EmailContent(OrElse(lead.contact_name, NotProvided), lead.email, OrElse(lead.company_name, NotProvided),
                 OrElse(lead.phone, NotProvided), OrElse(lead.nb_users_estimate, NotProvided),
                 lead.source, lead.language, NonEmpty(lead.message))
  }

  /** The subject names the contact (or the e-mail when there is none) and the company (or 'Particulier'). */
  function Subject(lead: NotificationRequest): (s: string)
    ensures SubjectPrefix <= s
    ensures s == SubjectPrefix + (if Present(lead.contact_name) then lead.contact_name.value else lead.email)
                 + " - " + (if Present(lead.company_name) then lead.company_name.value else PrivatePerson)
  {
    SubjectPrefix + OrElse(lead.contact_name, lead.email) + " - " + OrElse(lead.company_name, PrivatePerson)
  }

  datatype Email = Email(from: string, to: seq<string>, subject: string, content: EmailContent)

  /** The message handed to the provider: always to the single operator address. */
  function EmailFor(lead: NotificationRequest): (e: Email)
    ensures e.to == [Recipient] && e.from == Sender
    ensures e.subject == Subject(lead) && e.content == Content(lead)
  {
    Email(Sender, [Recipient], Subject(lead), Content(lead))
  }

  /** What `await req.json()` gave. */
  datatype RequestBody = Unreadable | Parsed(lead: NotificationRequest)

  /** The provider's answer: none (the fetch or its JSON threw) or a status and the `message` of its JSON body. */
  datatype ProviderReply = ProviderUnreachable | ProviderAnswered(status: nat, message: Option<string>)

  datatype ErrorText = Text(s: string) | RuntimeMessage
  datatype Body = NoBody | ErrorBody(error: ErrorText) | SuccessBody
  datatype Response = Response(status: nat, body: Body)

  /** The response, and the e-mail submitted to the provider if the handler got that far. */
  datatype Handled = Handled(response: Response, sent: Option<Email>)

  const MissingKeyMessage: string := "RESEND_API_KEY is not configured"
  const SendFailedMessage: string := "Failed to send email"

  /** The handler: the key is checked before the body is read; every thrown error is a 500 with `{error}`. */
  function Handle(httpMethod: string, apiKey: Option<string>, body: RequestBody, provider: ProviderReply): (h: Handled)
    ensures httpMethod == "OPTIONS" ==> h == Handled(Response(200, NoBody), None)
    ensures httpMethod != "OPTIONS" && !Present(apiKey) ==> h == Handled(Response(500, ErrorBody(Text(MissingKeyMessage))), None)
    ensures h.sent.Some? <==> httpMethod != "OPTIONS" && Present(apiKey) && body.Parsed?
    ensures h.sent.Some? ==> h.sent.value == EmailFor(body.lead)
    ensures h.response.body.SuccessBody? <==> h.sent.Some? && provider.ProviderAnswered? && IsOk(provider.status)
    ensures h.response.body.SuccessBody? ==> h.response.status == 200
    ensures h.sent.Some? && provider.ProviderAnswered? && !IsOk(provider.status) ==>
      h.response == Response(500, ErrorBody(Text(OrElse(provider.message, SendFailedMessage))))
    ensures h.response.status in {200, 500}
    ensures httpMethod != "OPTIONS" && !h.response.body.SuccessBody? ==>
      h.response.status == 500 && h.response.body.ErrorBody?
    ensures httpMethod != "OPTIONS" && Present(apiKey) && body.Unreadable? ==> h.response == Response(500, ErrorBody(RuntimeMessage))
    ensures h.sent.Some? && provider.ProviderUnreachable? ==> h.response == Response(500, ErrorBody(RuntimeMessage))
  {
    if httpMethod == "OPTIONS" then Handled(Response(200, NoBody), None)
    else if !Present(apiKey) then Handled(Response(500, ErrorBody(Text(MissingKeyMessage))), None)
    else if body.Unreadable? then Handled(Response(500, ErrorBody(RuntimeMessage)), None)
    else
      var email := EmailFor(body.lead);
      match provider
      case ProviderUnreachable => Handled(Response(500, ErrorBody(RuntimeMessage)), Some(email))
      case ProviderAnswered(status, message) =>
        if !IsOk(status) then Handled(Response(500, ErrorBody(Text(OrElse(message, SendFailedMessage)))), Some(email))
        else Handled(Response(200, SuccessBody), Some(email))
  }

  /** A lead with no name and no company is announced by e-mail address as a private person. */
  lemma AnonymousLeadSubject(email: string, source: string, language: string)
    ensures Subject(NotificationRequest(None, email, None, None, None, source, language, None))
      == SubjectPrefix + email + " - " + PrivatePerson
  {
  }
}

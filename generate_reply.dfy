/**
 * The decision logic of supabase/functions/generate-lead-reply/index.ts:
 * the CORS preflight, the credential guard, the lead fields the prompt is
 * built from and the mapping of the AI gateway's status to the response.
 * The gateway call itself is a parameter: what it answered, if anything.
 */
module GenerateLeadReply {
  import opened Wrappers
  import opened Js
  import Leads

  /** `languageMap`: the reply language named in the prompt. */
  const LanguageMap: map<string, string> := map["FR" := "French", "NL" := "Dutch", "EN" := "English"]

  /** `languageMap[lead.language] || 'French'`. */
  function LanguageName(code: string): (name: string)
    ensures code == "FR" ==> name == "French"
    ensures code == "NL" ==> name == "Dutch"
    ensures code == "EN" ==> name == "English"
    ensures code !in {"FR", "NL", "EN"} ==> name == "French"
  {
    if code in LanguageMap && LanguageMap[code] != "" then LanguageMap[code] else "French"
  }

  /** The language of a stored lead is always named, and French is both FR and the default. */
  lemma LeadLanguageNames(l: Leads.LeadLanguage)
    ensures LanguageName(Leads.LanguageCode(l)) ==
      match l
      case FR => "French"
      case NL => "Dutch"
      case EN => "English"
  {
  }

  /** The values interpolated into the user prompt's "Lead Information" block. */
  datatype LeadInformation = LeadInformation(
    company: string,
    contact: string,
    email: string,
    phone: string,
    usersEstimate: string,
    source: string,
    message: string,
    languagePreference: string,
    replyLanguage: string)

  const NotProvided: string := "Not provided"
  const NoMessage: string := "No message provided"

  /** A falsy company, contact, phone or user count reads 'Not provided', a falsy message 'No message provided'; email and source are verbatim. */
  function Information(lead: Leads.Lead): (info: LeadInformation)
    ensures info.company == (if Present(lead.company_name) then lead.company_name.value else NotProvided)
    ensures info.contact == (if Present(lead.contact_name) then lead.contact_name.value else NotProvided)
    ensures info.phone == (if Present(lead.phone) then lead.phone.value else NotProvided)
    ensures info.usersEstimate == (if Present(lead.nb_users_estimate) then lead.nb_users_estimate.value else NotProvided)
    ensures info.message == (if Present(lead.message) then lead.message.value else NoMessage)
    ensures info.email == lead.email && info.source == lead.source
    ensures info.languagePreference == Leads.LanguageCode(lead.language)
    ensures info.replyLanguage == LanguageName(Leads.LanguageCode(lead.language))
  {
    var code := Leads.LanguageCode(lead.language);
    LeadInformation(OrElse(lead.company_name, NotProvided), OrElse(lead.contact_name, NotProvided),
                    lead.email, OrElse(lead.phone, NotProvided), OrElse(lead.nb_users_estimate, NotProvided),
                    lead.source, OrElse(lead.message, NoMessage), code, LanguageName(code))
  }

  /** What `await req.json()` gave: unreadable, an object without `lead`, or the lead the admin view sent. */
  datatype RequestBody = Unreadable | WithoutLead | WithLead(lead: Leads.Lead)

  /**
   * The AI gateway's answer: a status with the first choice's message
   * content, or none when the fetch threw or reading the answer's body threw
   * (`response.text()` on a failure, `response.json()` on a success).
   */
  datatype GatewayReply = Unreachable | Answered(status: nat, content: string)

  /** An error message: one of the function's own, or one raised by the runtime (not modelled). */
  datatype ErrorText = Text(s: string) | RuntimeMessage

  /** Every response carries the CORS headers; the preflight has no body. */
  datatype Body = NoBody | ErrorBody(error: ErrorText) | ReplyBody(reply: string)
  datatype Response = Response(status: nat, body: Body)

  /** The response, and the prompt sent to the gateway if the handler got that far. */
  datatype Handled = Handled(response: Response, gatewayRequest: Option<LeadInformation>)

  const MissingKeyMessage: string := "LOVABLE_API_KEY is not configured"
  const RateLimitMessage: string := "Rate limit exceeded. Please try again later."
  const CreditsMessage: string := "AI credits exhausted. Please add credits to continue."

  /** The response for a gateway answer that is not OK: 429 and 402 pass through, anything else is a 500. */
  function GatewayFailure(status: nat): (r: Response)
    requires !IsOk(status)
    ensures status == 429 ==> r == Response(429, ErrorBody(Text(RateLimitMessage)))
    ensures status == 402 ==> r == Response(402, ErrorBody(Text(CreditsMessage)))
    ensures status != 429 && status != 402 ==> r == Response(500, ErrorBody(Text("AI gateway error: " + DecimalString(status))))
  {
    if status == 429 then Response(429, ErrorBody(Text(RateLimitMessage)))
    else if status == 402 then Response(402, ErrorBody(Text(CreditsMessage)))
    else Response(500, ErrorBody(Text("AI gateway error: " + DecimalString(status))))
  }

  /** The request handler: early returns and throws, each thrown error answered with a 500. */
  function Handle(httpMethod: string, body: RequestBody, apiKey: Option<string>, gateway: GatewayReply): (h: Handled)
    ensures httpMethod == "OPTIONS" ==> h == Handled(Response(200, NoBody), None)
    ensures h.gatewayRequest.Some? <==> httpMethod != "OPTIONS" && body.WithLead? && Present(apiKey)
    ensures h.gatewayRequest.Some? ==> h.gatewayRequest.value == Information(body.lead)
    ensures httpMethod != "OPTIONS" && !body.Unreadable? && !Present(apiKey) ==>
      h.response == Response(500, ErrorBody(Text(MissingKeyMessage)))
    ensures h.gatewayRequest.Some? && gateway.Answered? && !IsOk(gateway.status) ==>
      h.response == GatewayFailure(gateway.status)
    ensures h.response.body.ReplyBody? <==> h.gatewayRequest.Some? && gateway.Answered? && IsOk(gateway.status)
    ensures h.response.body.ReplyBody? ==> h.response == Response(200, ReplyBody(gateway.content))
    ensures h.response.status in {200, 402, 429, 500}
    ensures httpMethod != "OPTIONS" && !(h.gatewayRequest.Some? && gateway.Answered?) ==>
      h.response.status == 500 && h.response.body.ErrorBody?
    ensures httpMethod != "OPTIONS" && body.Unreadable? ==> h.response == Response(500, ErrorBody(RuntimeMessage))
    ensures h.gatewayRequest.Some? && gateway.Unreachable? ==> h.response == Response(500, ErrorBody(RuntimeMessage))
  {
    if httpMethod == "OPTIONS" then Handled(Response(200, NoBody), None)
    else if body.Unreadable? then Handled(Response(500, ErrorBody(RuntimeMessage)), None)
    else if !Present(apiKey) then Handled(Response(500, ErrorBody(Text(MissingKeyMessage))), None)
    else if body.WithoutLead? then
      // `lead.id` on `undefined` throws a TypeError
      Handled(Response(500, ErrorBody(RuntimeMessage)), None)
    else
      var request := Information(body.lead);
      match gateway
      case Unreachable => Handled(Response(500, ErrorBody(RuntimeMessage)), Some(request))
      case Answered(status, content) =>
        if !IsOk(status) then Handled(GatewayFailure(status), Some(request))
        else Handled(Response(200, ReplyBody(content)), Some(request))
  }

  /** Without a key no gateway call is made, so the gateway's behaviour cannot matter. */
  lemma MissingKeyIgnoresGateway(httpMethod: string, body: RequestBody, apiKey: Option<string>, g1: GatewayReply, g2: GatewayReply)
    requires !Present(apiKey)
    ensures Handle(httpMethod, body, apiKey, g1) == Handle(httpMethod, body, apiKey, g2)
    ensures Handle(httpMethod, body, apiKey, g1).gatewayRequest.None?
  {
  }

  /** The three gateway failures the operator can tell apart by status. */
  lemma GatewayFailuresAreDistinguished(lead: Leads.Lead, apiKey: string, content: string, other: nat)
    requires apiKey != "" && !IsOk(other) && other != 429 && other != 402
    ensures Handle("POST", WithLead(lead), Some(apiKey), Answered(429, content)).response.status == 429
    ensures Handle("POST", WithLead(lead), Some(apiKey), Answered(402, content)).response.status == 402
    ensures Handle("POST", WithLead(lead), Some(apiKey), Answered(other, content)).response.status == 500
  {
  }
}

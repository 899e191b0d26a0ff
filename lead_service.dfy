/**
 * The webhook dispatcher of src/services/leadService.ts: `sendLead` relays a
 * lead payload to the automation webhook, at most once, and never rejects;
 * the three typed helpers fill in a default `type` and `message`.
 *
 * A payload is a JSON object, modelled as a map from field names to values,
 * so that JavaScript object spread is map union with the right operand
 * winning.
 */
module LeadService {
  import opened Wrappers
  import opened Js

  datatype LeadType = Audit | Expert | Contact

  /** The wire name of a lead type. */
  function TypeName(t: LeadType): (name: string)
    ensures name in {"audit", "expert", "contact"}
  {
    match t
    case Audit => "audit"
    case Expert => "expert"
    case Contact => "contact"
  }

  /** A JSON object sent to the webhook. */
  type Payload = map<string, JsVal>

  const Website: string := "tekio.be"
  const AuditDefaultMessage: string := "Audit gratuit demandé depuis le CTA"
  const ExpertDefaultMessage: string := "Demande pour parler à un expert Tekio"

  /** `{...payload, website: 'tekio.be', timestamp}`: every field of the payload is kept, two are added. */
  function WithSiteInfo(payload: Payload, timestamp: string): (r: Payload)
    ensures r.Keys == payload.Keys + {"website", "timestamp"}
    ensures r["website"] == Str(Website) && r["timestamp"] == Str(timestamp)
    ensures forall k :: k in payload && k != "website" && k != "timestamp" ==> r[k] == payload[k]
  {
    payload + map["website" := Str(Website), "timestamp" := Str(timestamp)]
  }

  /** `{...base, ...data}`: a field present in `data` overrides the one in `base`. */
  function Spread(base: Payload, data: Payload): (r: Payload)
    ensures r.Keys == base.Keys + data.Keys
    ensures forall k :: k in data ==> r[k] == data[k]
    ensures forall k :: k in base && k !in data ==> r[k] == base[k]
  {
    base + data
  }

  /** `data?.[key]`: `undefined` when `data` is `undefined` or lacks the field. */
  function Field(data: Option<Payload>, key: string): (v: JsVal)
    ensures (data.Some? && key in data.value) ==> v == data.value[key]
    ensures !(data.Some? && key in data.value) ==> v == Undefined
  {
    if data.Some? && key in data.value then data.value[key] else Undefined
  }

  /**
   * The payload a typed helper hands to `sendLead`:
   * `{type, source, message: data?.message || default, ...data}`, where the
   * contact helper has no `message` default at all.
   */
  function HelperPayload(t: LeadType, source: string, defaultMessage: Option<string>, data: Option<Payload>): (r: Payload)
    ensures r.Keys == {"type", "source"} + (if defaultMessage.Some? then {"message"} else {}) + data.GetOr(map[]).Keys
    ensures forall k :: data.Some? && k in data.value ==> r[k] == data.value[k]
    ensures !(data.Some? && "type" in data.value) ==> r["type"] == Str(TypeName(t))
    ensures !(data.Some? && "source" in data.value) ==> r["source"] == Str(source)
    ensures defaultMessage.Some? && !(data.Some? && "message" in data.value) ==> r["message"] == Str(defaultMessage.value)
  {
    var typed := map["type" := Str(TypeName(t)), "source" := Str(source)];
    var base := if defaultMessage.Some? then
        var given := Field(data, "message");
        typed["message" := if Truthy(given) then given else Str(defaultMessage.value)]
      else typed;
    Spread(base, data.GetOr(map[]))
  }

  /** `sendAuditLead(source, data)`'s payload: type `audit` and the CTA message unless the data says otherwise. */
  function AuditPayload(source: string, data: Option<Payload>): (r: Payload)
    ensures r.Keys == {"type", "source", "message"} + data.GetOr(map[]).Keys
    ensures forall k :: data.Some? && k in data.value ==> r[k] == data.value[k]
    ensures !(data.Some? && "type" in data.value) ==> r["type"] == Str("audit")
    ensures !(data.Some? && "message" in data.value) ==> r["message"] == Str(AuditDefaultMessage)
  {
    HelperPayload(Audit, source, Some(AuditDefaultMessage), data)
  }

  /** `sendExpertLead(source, data)`'s payload: type `expert` and the expert message unless the data says otherwise. */
  function ExpertPayload(source: string, data: Option<Payload>): (r: Payload)
    ensures r.Keys == {"type", "source", "message"} + data.GetOr(map[]).Keys
    ensures forall k :: data.Some? && k in data.value ==> r[k] == data.value[k]
    ensures !(data.Some? && "type" in data.value) ==> r["type"] == Str("expert")
    ensures !(data.Some? && "message" in data.value) ==> r["message"] == Str(ExpertDefaultMessage)
  {
    HelperPayload(Expert, source, Some(ExpertDefaultMessage), data)
  }

  /** `sendContactLead(source, data)`'s payload: type `contact`, and a message only if the data has one. */
  function ContactPayload(source: string, data: Payload): (r: Payload)
    ensures r.Keys == {"type", "source"} + data.Keys
    ensures forall k :: k in data ==> r[k] == data[k]
    ensures "type" !in data ==> r["type"] == Str("contact")
    ensures "message" in r <==> "message" in data
  {
    HelperPayload(Contact, source, None, Some(data))
  }

  /** With no data, the audit helper sends its type, the source and the default message, and nothing else. */
  lemma AuditHelperDefaults(source: string)
    ensures AuditPayload(source, None) == map["type" := Str("audit"), "source" := Str(source), "message" := Str(AuditDefaultMessage)]
  {
  }

  /** A truthy message in the data is the message sent. */
  lemma HelperKeepsTruthyMessage(t: LeadType, source: string, defaultMessage: string, data: Payload)
    requires "message" in data && Truthy(data["message"])
    ensures HelperPayload(t, source, Some(defaultMessage), Some(data))["message"] == data["message"]
  {
  }

  /**
   * Because `...data` is spread last, a falsy message that is present in the
   * data (here `""`) replaces the default, and a `type` in the data replaces
   * the helper's own type.
   */
  lemma DataOverridesHelperDefaults(source: string)
    ensures AuditPayload(source, Some(map["message" := Str("")]))["message"] == Str("")
    ensures ExpertPayload(source, Some(map["type" := Str("contact")]))["type"] == Str("contact")
  {
    var d := map["message" := Str("")];
    assert "message" in d;
    var e := map["type" := Str("contact")];
    assert "type" in e;
  }

  /** What the webhook call produced, as `fetch` reports it. */
  datatype HttpReply = NetworkError | Responded(status: nat)

  datatype Post = Post(url: string, body: Payload)

  /** The console lines `sendLead` writes; none of them reaches the caller. */
  datatype LogLine =
    | MissingWebhookWarning
    | Delivered(leadType: JsVal, source: JsVal)
    | DeliveryFailed(reply: HttpReply)

  /** The line `sendLead` logs once the POST settles: success only for a 2xx answer. */
  function DeliveryLog(payload: Payload, reply: HttpReply): (line: LogLine)
    ensures line.Delivered? <==> reply.Responded? && IsOk(reply.status)
    ensures line.DeliveryFailed? ==> line.reply == reply
    ensures !line.MissingWebhookWarning?
  {
    if reply.Responded? && IsOk(reply.status) then
      Delivered(if "type" in payload then payload["type"] else Undefined,
                if "source" in payload then payload["source"] else Undefined)
    else DeliveryFailed(reply)
  }

  /**
   * The dispatcher: the configured webhook URL, the POSTs made so far and the
   * console log. `sendLead` resolves in every case, so its methods have no
   * result; failures only ever reach `log`.
   */
  class Dispatcher {
    const webhookUrl: Option<string>
    var posts: seq<Post>
    var log: seq<LogLine>

    constructor (webhookUrl: Option<string>)
      ensures this.webhookUrl == webhookUrl && posts == [] && log == []
    {
      this.webhookUrl := webhookUrl;
      posts := [];
      log := [];
    }

    /** `!webhookUrl` is false: the URL is set and not empty. */
    predicate Configured() {
      Present(webhookUrl)
    }

    /**
     * `sendLead(payload)`: without a URL, warn and return; otherwise exactly
     * one POST of the payload with the site and timestamp added, whose
     * failure (non-2xx or network error) is logged and swallowed.
     */
    method SendLead(payload: Payload, timestamp: string, reply: HttpReply)
      modifies this
      ensures !Configured() ==> posts == old(posts) && log == old(log) + [MissingWebhookWarning]
      ensures Configured() ==> posts == old(posts) + [Post(webhookUrl.value, WithSiteInfo(payload, timestamp))]
      ensures Configured() ==> log == old(log) + [DeliveryLog(payload, reply)]
    {
      if !Present(webhookUrl) {
        log := log + [MissingWebhookWarning];
        return;
      }
      var body := WithSiteInfo(payload, timestamp);
      posts := posts + [Post(webhookUrl.value, body)];
      log := log + [DeliveryLog(payload, reply)];
    }

    /** `sendAuditLead(source, data)`. */
    method SendAuditLead(source: string, data: Option<Payload>, timestamp: string, reply: HttpReply)
      modifies this
      ensures !Configured() ==> posts == old(posts)
      ensures Configured() ==> posts == old(posts) + [Post(webhookUrl.value, WithSiteInfo(AuditPayload(source, data), timestamp))]
      ensures log == old(log) + [if Configured() then DeliveryLog(AuditPayload(source, data), reply) else MissingWebhookWarning]
    {
      SendLead(AuditPayload(source, data), timestamp, reply);
    }

    /** `sendExpertLead(source, data)`. */
    method SendExpertLead(source: string, data: Option<Payload>, timestamp: string, reply: HttpReply)
      modifies this
      ensures !Configured() ==> posts == old(posts)
      ensures Configured() ==> posts == old(posts) + [Post(webhookUrl.value, WithSiteInfo(ExpertPayload(source, data), timestamp))]
      ensures log == old(log) + [if Configured() then DeliveryLog(ExpertPayload(source, data), reply) else MissingWebhookWarning]
    {
      SendLead(ExpertPayload(source, data), timestamp, reply);
    }

    /** `sendContactLead(source, data)`. */
    method SendContactLead(source: string, data: Payload, timestamp: string, reply: HttpReply)
      modifies this
      ensures !Configured() ==> posts == old(posts)
      ensures Configured() ==> posts == old(posts) + [Post(webhookUrl.value, WithSiteInfo(ContactPayload(source, data), timestamp))]
      ensures log == old(log) + [if Configured() then DeliveryLog(ContactPayload(source, data), reply) else MissingWebhookWarning]
    {
      SendLead(ContactPayload(source, data), timestamp, reply);
    }
  }
}

/**
 * Amazon SES event-publishing notifications as the handler sees them, and
 * the three pure lookups it applies to them: the event classifier, the
 * payload selector and the webhook-event table.
 */
module SesEvents {
  import opened Common
  import opened EmailStatuses

  /**
   * An event-specific sub-object of a notification. Only the two properties
   * the handler reads are kept: a bounce's `bounceType` and a click's `link`;
   * either is absent when the sub-object does not carry it.
   */
  datatype Payload = Payload(bounceType: Option<string>, link: Option<string>)

  /**
   * A notification: its `eventType` discriminant, the SES message id from
   * `mail.messageId`, and its event-specific sub-objects by property name
   * ("bounce", "click", "renderingFailure", "deliveryDelay", ...).
   */
  datatype SesEvent = SesEvent(eventType: string, messageId: string, payloads: map<string, Payload>)

  /** The event classifier: the canonical status of a notification, if its event type is known. */
  function GetEmailStatus(data: SesEvent): Option<EmailStatus>
  {
    var t := data.eventType;
    if t == "Send" then Some(Sent)
    else if t == "Delivery" then Some(Delivered)
    else if t == "Bounce" then Some(Bounced)
    else if t == "Complaint" then Some(Complained)
    else if t == "Reject" then Some(Rejected)
    else if t == "Open" then Some(Opened)
    else if t == "Click" then Some(Clicked)
    else if t == "Rendering Failure" then Some(RenderingFailure)
    else if t == "DeliveryDelay" then Some(DeliveryDelayed)
    else None
  }

  /** Reference table: the SES event type that reports each status (none reports SCHEDULED). */
  function EventTypeOf(s: EmailStatus): Option<string>
  {
    match s
    case Scheduled => None
    case Sent => Some("Send")
    case Delivered => Some("Delivery")
    case DeliveryDelayed => Some("DeliveryDelay")
    case Opened => Some("Open")
    case Clicked => Some("Click")
    case Bounced => Some("Bounce")
    case Complained => Some("Complaint")
    case Rejected => Some("Reject")
    case RenderingFailure => Some("Rendering Failure")
  }

  /**
   * The classifier maps exactly the nine SES event types to their statuses,
   * each to one status, and every other event type to no status.
   */
  lemma ClassifierRoundTrip(data: SesEvent, s: EmailStatus)
    ensures GetEmailStatus(data) == Some(s) <==> EventTypeOf(s) == Some(data.eventType)
    ensures GetEmailStatus(data).None? <==> forall s' :: EventTypeOf(s') != Some(data.eventType)
  {
    if GetEmailStatus(data).Some? {
      assert EventTypeOf(GetEmailStatus(data).value) == Some(data.eventType);
    }
  }

  /**
   * The property under which a notification carries its event-specific
   * sub-object: two event types use their own camel-case names, the rest the
   * lower-cased event type.
   */
  function PayloadKey(eventType: string): string
  {
    if eventType == "Rendering Failure" then "renderingFailure"
    else if eventType == "DeliveryDelay" then "deliveryDelay"
    else ToLower(eventType)
  }

  /** The payload selector: the event-specific sub-object, if present. */
  function GetEmailData(data: SesEvent): Option<Payload>
  {
    var key := PayloadKey(data.eventType);
    if key in data.payloads then Some(data.payloads[key]) else None
  }

  /** Reference table: the SES property holding the details of each kind of event. */
  function PayloadField(s: EmailStatus): string
  {
    match s
    case Scheduled => ""
    case Sent => "send"
    case Delivered => "delivery"
    case DeliveryDelayed => "deliveryDelay"
    case Opened => "open"
    case Clicked => "click"
    case Bounced => "bounce"
    case Complained => "complaint"
    case Rejected => "reject"
    case RenderingFailure => "renderingFailure"
  }

  /** Lower-casing the seven plain event types gives their property names. */
  lemma LowerCasedEventTypes()
    ensures ToLower("Send") == "send" && ToLower("Delivery") == "delivery"
    ensures ToLower("Bounce") == "bounce" && ToLower("Complaint") == "complaint"
    ensures ToLower("Reject") == "reject" && ToLower("Open") == "open" && ToLower("Click") == "click"
  {
  }

  /**
   * The selector reads the lower-cased event type exactly when the event type
   * is neither of the two camel-case ones; for those two, lower-casing would
   * name a property SES does not use.
   */
  lemma PayloadKeyLowerCases(eventType: string)
    ensures PayloadKey(eventType) == ToLower(eventType) <==>
      eventType != "Rendering Failure" && eventType != "DeliveryDelay"
  {
    if eventType == "Rendering Failure" {
      assert ToLower(eventType)[9] == ' ';
    } else if eventType == "DeliveryDelay" {
      assert ToLower(eventType)[8] == 'd';
    }
  }

  /**
   * For every classified notification the selector reads the property the
   * reference table names for its status.
   */
  lemma GetEmailDataSelects(data: SesEvent)
    requires GetEmailStatus(data).Some?
    ensures PayloadKey(data.eventType) == PayloadField(GetEmailStatus(data).value)
    ensures var f := PayloadField(GetEmailStatus(data).value);
      GetEmailData(data) == if f in data.payloads then Some(data.payloads[f]) else None
  {
    LowerCasedEventTypes();
  }

  /** The kinds of event the webhook dispatcher can publish. */
  datatype WebhookEvent =
    | EmailSent
    | EmailDelivered
    | EmailOpened
    | EmailClicked
    | EmailBounced
    | EmailComplained

  /** The webhook event published for a status, if any. */
  function ToWebhookEvent(s: EmailStatus): Option<WebhookEvent>
  {
    match s
    case Sent => Some(EmailSent)
    case Delivered => Some(EmailDelivered)
    case Opened => Some(EmailOpened)
    case Clicked => Some(EmailClicked)
    case Bounced => Some(EmailBounced)
    case Complained => Some(EmailComplained)
    case _ => None
  }

  /** Reference table: the status each webhook event reports. */
  function WebhookStatus(k: WebhookEvent): EmailStatus
  {
    match k
    case EmailSent => Sent
    case EmailDelivered => Delivered
    case EmailOpened => Opened
    case EmailClicked => Clicked
    case EmailBounced => Bounced
    case EmailComplained => Complained
  }

  /**
   * Exactly SENT, DELIVERED, OPENED, CLICKED, BOUNCED and COMPLAINED have a
   * webhook event, each its own; SCHEDULED, DELIVERY_DELAYED, REJECTED and
   * RENDERING_FAILURE have none.
   */
  lemma WebhookRoundTrip(s: EmailStatus, k: WebhookEvent)
    ensures ToWebhookEvent(s) == Some(k) <==> WebhookStatus(k) == s
    ensures ToWebhookEvent(s).None? <==> s in {Scheduled, DeliveryDelayed, Rejected, RenderingFailure}
  {
  }
}

/**
 * The SES notification handler: for one notification it updates the email's
 * `latestStatus`, the daily and lifetime usage counters, runs the campaign
 * unsubscribe cascade and the campaign-analytics rollup, appends to the
 * event log and triggers the webhook.
 *
 * The datastore is held in memory by `SesHookStore`; the three collaborators
 * whose code is not part of this model (unsubscribe, campaign analytics,
 * webhook dispatch) are recorded as calls appended to logs.
 */
module SesHook {
  import opened Common
  import opened EmailStatuses
  import opened SesEvents
  import opened Usage

  /** An email row, as stored under its SES message id. */
  datatype Email = Email(
    id: string,
    latestStatus: Option<EmailStatus>,
    teamId: int,
    domainId: Option<int>,
    campaignId: Option<string>,
    contactId: Option<string>)

  /** A contact row; `teamId` is the team owning the contact's contact book. */
  datatype Contact = Contact(id: string, email: string, teamId: int)

  /** An entry of the append-only event log. */
  datatype EmailEvent = EmailEvent(emailId: string, status: EmailStatus, data: Option<Payload>)

  datatype UnsubscribeReason = ReasonBounced | ReasonComplained

  /** A call to the unsubscribe service; a campaign-scoped call names the campaign. */
  datatype UnsubscribeCall = UnsubscribeCall(contactId: string, campaignId: Option<string>, reason: UnsubscribeReason)

  /** A call to the campaign-analytics service, with the email it was made for. */
  datatype AnalyticsCall = AnalyticsCall(emailId: string, campaignId: string, status: EmailStatus, hardBounced: bool)

  /** A call to the webhook service and whether that service reported success. */
  datatype WebhookCall = WebhookCall(
    teamId: int,
    event: WebhookEvent,
    emailId: string,
    status: EmailStatus,
    data: Option<Payload>,
    delivered: bool)

  /** What the handler does: return a boolean, or throw. */
  datatype Outcome = Returned(value: bool) | Threw

  // ---------------------------------------------------------------------
  // Reading the event-specific payload

  /** Reading `bounceType` of a BOUNCED notification that has no bounce object throws. */
  predicate BounceUnreadable(s: EmailStatus, mailData: Option<Payload>)
  {
    s == Bounced && mailData.None?
  }

  /** A hard bounce: BOUNCED with bounce type "Permanent". */
  predicate IsHardBounced(s: EmailStatus, mailData: Option<Payload>)
  {
    s == Bounced && mailData.Some? && mailData.value.bounceType == Some("Permanent")
  }

  function UnsubscribeUrl(baseUrl: string): string
  {
    baseUrl + "/unsubscribe"
  }

  /** Reading the link of a campaign CLICKED notification without a click link throws. */
  predicate ClickUnreadable(e: Email, s: EmailStatus, mailData: Option<Payload>)
  {
    e.campaignId.Some? && s == Clicked && (mailData.None? || mailData.value.link.None?)
  }

  /** A click on the platform's own unsubscribe page. */
  predicate IsUnsubscribeClick(s: EmailStatus, mailData: Option<Payload>, baseUrl: string)
  {
    s == Clicked && mailData.Some? && mailData.value.link.Some?
    && UnsubscribeUrl(baseUrl) <= mailData.value.link.value
  }

  /** Whether the cascade and the analytics rollup are considered: a campaign email, not an unsubscribe click. */
  predicate CampaignFollowUp(e: Email, s: EmailStatus, mailData: Option<Payload>, baseUrl: string)
  {
    e.campaignId.Some? && !IsUnsubscribeClick(s, mailData, baseUrl)
  }

  // ---------------------------------------------------------------------
  // The unsubscribe cascade

  /** The cascade condition, read from the whole notification: a permanent bounce or a complaint. */
  predicate CascadeFires(event: EmailStatus, data: SesEvent)
  {
    || (event == Bounced && "bounce" in data.payloads && data.payloads["bounce"].bounceType == Some("Permanent"))
    || event == Complained
  }

  function ReasonFor(event: EmailStatus): UnsubscribeReason
  {
    if event == Bounced then ReasonBounced else ReasonComplained
  }

  /** Point lookup of a contact by id. */
  function FindContact(contacts: seq<Contact>, id: string): (r: Option<Contact>)
    ensures r.Some? ==> r.value in contacts && r.value.id == id
    ensures r.None? ==> forall c :: c in contacts ==> c.id != id
    decreases |contacts|
  {
    if contacts == [] then None
    else if contacts[0].id == id then Some(contacts[0])
    else FindContact(contacts[1..], id)
  }

  /** The contacts with a given address in the contact books of a team, in table order. */
  function SameEmailInTeam(contacts: seq<Contact>, email: string, teamId: int): (r: seq<Contact>)
    ensures forall c :: c in r <==> c in contacts && c.email == email && c.teamId == teamId
    decreases |contacts|
  {
    if contacts == [] then []
    else
      var rest := SameEmailInTeam(contacts[1..], email, teamId);
      if contacts[0].email == email && contacts[0].teamId == teamId then [contacts[0]] + rest else rest
  }

  /** The ids of the given contacts other than `contactId`, in order. */
  function OtherIds(all: seq<Contact>, contactId: string): (r: seq<string>)
    ensures forall x :: x in r <==> x != contactId && exists c :: c in all && c.id == x
    decreases |all|
  {
    if all == [] then []
    else
      var last := all[|all| - 1];
      var rest := OtherIds(all[..|all| - 1], contactId);
      assert forall c :: c in all <==> c in all[..|all| - 1] || c == last;
      if last.id != contactId then rest + [last.id] else rest
  }

  /** One contact-wide (not campaign-scoped) unsubscribe call per id. */
  function GlobalCalls(ids: seq<string>, reason: UnsubscribeReason): seq<UnsubscribeCall>
  {
    seq(|ids|, i requires 0 <= i < |ids| => UnsubscribeCall(ids[i], None, reason))
  }

  /** The unsubscribe calls the cascade makes. */
  function CascadeCalls(
    contacts: seq<Contact>, contactId: Option<string>, campaignId: string, teamId: int,
    event: EmailStatus, data: SesEvent): seq<UnsubscribeCall>
  {
    if !CascadeFires(event, data) || contactId.None? then []
    else
      match FindContact(contacts, contactId.value)
      case None => []
      case Some(contact) =>
        var reason := ReasonFor(event);
        [UnsubscribeCall(contactId.value, Some(campaignId), reason)]
        + GlobalCalls(OtherIds(SameEmailInTeam(contacts, contact.email, teamId), contactId.value), reason)
  }

  /** The contacts that receive a contact-wide unsubscribe call. */
  function GlobalTargets(calls: seq<UnsubscribeCall>): set<string>
  {
    set i | 1 <= i < |calls| :: calls[i].contactId
  }

  /**
   * The cascade does nothing unless the event is a permanent bounce or a
   * complaint and the contact exists. Otherwise it unsubscribes the
   * triggering contact from the campaign and every other contact with the
   * same address in the team from everything, all with reason BOUNCED iff
   * the event is BOUNCED.
   */
  lemma CascadeTargets(
    contacts: seq<Contact>, contactId: string, campaignId: string, teamId: int,
    event: EmailStatus, data: SesEvent)
    ensures !CascadeFires(event, data) ==> CascadeCalls(contacts, Some(contactId), campaignId, teamId, event, data) == []
    ensures FindContact(contacts, contactId).None? ==> CascadeCalls(contacts, Some(contactId), campaignId, teamId, event, data) == []
    ensures CascadeFires(event, data) && FindContact(contacts, contactId).Some? ==>
      var calls := CascadeCalls(contacts, Some(contactId), campaignId, teamId, event, data);
      var trigger := FindContact(contacts, contactId).value;
      var reason := if event == Bounced then ReasonBounced else ReasonComplained;
      && |calls| >= 1
      && calls[0] == UnsubscribeCall(contactId, Some(campaignId), reason)
      && (forall i :: 1 <= i < |calls| ==> calls[i].campaignId.None? && calls[i].reason == reason)
      && GlobalTargets(calls)
         == (set c | c in contacts && c.email == trigger.email && c.teamId == teamId && c.id != contactId :: c.id)
  {
    if CascadeFires(event, data) && FindContact(contacts, contactId).Some? {
      var calls := CascadeCalls(contacts, Some(contactId), campaignId, teamId, event, data);
      var trigger := FindContact(contacts, contactId).value;
      var others := OtherIds(SameEmailInTeam(contacts, trigger.email, teamId), contactId);
      var first := UnsubscribeCall(contactId, Some(campaignId), ReasonFor(event));
      assert calls == [first] + GlobalCalls(others, ReasonFor(event));
      GlobalCallsTargets(first, others, ReasonFor(event));
      OtherIdsInTeam(contacts, trigger.email, teamId, contactId);
    }
  }

  /** The contact-wide calls go to exactly the listed ids. */
  lemma GlobalCallsTargets(first: UnsubscribeCall, ids: seq<string>, reason: UnsubscribeReason)
    ensures GlobalTargets([first] + GlobalCalls(ids, reason)) == set x | x in ids
  {
    var calls := [first] + GlobalCalls(ids, reason);
    forall x | x in GlobalTargets(calls)
      ensures x in ids
    {
      var i :| 1 <= i < |calls| && calls[i].contactId == x;
      assert x == ids[i - 1];
    }
    forall x | x in ids
      ensures x in GlobalTargets(calls)
    {
      var k :| 0 <= k < |ids| && ids[k] == x;
      assert calls[k + 1].contactId == x;
    }
  }

  /** The other ids of the same-address contacts are the ids of the team's other contacts with that address. */
  lemma OtherIdsInTeam(contacts: seq<Contact>, email: string, teamId: int, contactId: string)
    ensures (set x | x in OtherIds(SameEmailInTeam(contacts, email, teamId), contactId))
         == (set c | c in contacts && c.email == email && c.teamId == teamId && c.id != contactId :: c.id)
  {
    var all := SameEmailInTeam(contacts, email, teamId);
    var others := OtherIds(all, contactId);
    forall x | x in others
      ensures exists c :: c in contacts && c.email == email && c.teamId == teamId && c.id != contactId && c.id == x
    {
      var c :| c in all && c.id == x;
    }
    forall c | c in contacts && c.email == email && c.teamId == teamId && c.id != contactId
      ensures c.id in others
    {
      assert c in all;
    }
  }

  /**
   * The cascade condition, read from the whole notification's bounce object,
   * agrees with the handler's own hard-bounce test on the selected payload:
   * the cascade fires exactly for a hard bounce or a complaint.
   */
  lemma CascadeConditionAgrees(data: SesEvent)
    requires GetEmailStatus(data).Some?
    ensures var s := GetEmailStatus(data).value;
      CascadeFires(s, data) <==> IsHardBounced(s, GetEmailData(data)) || s == Complained
  {
    GetEmailDataSelects(data);
  }

  // ---------------------------------------------------------------------
  // The event log and the at-most-once campaign-analytics rollup

  /** Whether the event log holds an entry for an email with a status. */
  predicate HasEvent(log: seq<EmailEvent>, emailId: string, s: EmailStatus)
  {
    exists k :: 0 <= k < |log| && log[k].emailId == emailId && log[k].status == s
  }

  /**
   * Every analytics call made so far has an event-log entry for its email and
   * status, and no two calls were made for the same email and status.
   */
  ghost predicate AnalyticsOnce(analytics: seq<AnalyticsCall>, log: seq<EmailEvent>)
  {
    && (forall i :: 0 <= i < |analytics| ==> HasEvent(log, analytics[i].emailId, analytics[i].status))
    && (forall i, j :: 0 <= i < j < |analytics| ==>
          analytics[i].emailId != analytics[j].emailId || analytics[i].status != analytics[j].status)
  }

  /**
   * One processed notification keeps the rollup at most once per email and
   * status: it makes at most one call, only when the log has no entry for
   * that email and status, and then logs such an entry.
   */
  lemma AnalyticsStepKeepsOnce(
    analytics: seq<AnalyticsCall>, log: seq<EmailEvent>, calls: seq<AnalyticsCall>, entry: EmailEvent)
    requires AnalyticsOnce(analytics, log)
    requires |calls| <= 1
    requires forall c :: c in calls ==>
      c.emailId == entry.emailId && c.status == entry.status && !HasEvent(log, entry.emailId, entry.status)
    ensures AnalyticsOnce(analytics + calls, log + [entry])
  {
    var a := analytics + calls;
    var l := log + [entry];
    forall i | 0 <= i < |a|
      ensures HasEvent(l, a[i].emailId, a[i].status)
    {
      if i < |analytics| {
        assert a[i] == analytics[i];
        assert HasEvent(log, a[i].emailId, a[i].status);
        var k :| 0 <= k < |log| && log[k].emailId == a[i].emailId && log[k].status == a[i].status;
        assert l[k] == log[k];
      } else {
        assert a[i] in calls;
        assert l[|log|] == entry;
      }
    }
    forall i, j | 0 <= i < j < |a|
      ensures a[i].emailId != a[j].emailId || a[i].status != a[j].status
    {
      if j >= |analytics| {
        assert a[j] in calls;
        assert HasEvent(log, a[i].emailId, a[i].status);
      }
    }
  }

  // ---------------------------------------------------------------------
  // The handler

  /** The notification is classified and its email exists. */
  predicate Found(emails: map<string, Email>, data: SesEvent)
  {
    GetEmailStatus(data).Some? && data.messageId in emails
  }

  /** A repeated DELIVERY_DELAYED: accepted without any write. */
  predicate RepeatedDelay(emails: map<string, Email>, data: SesEvent)
  {
    && Found(emails, data)
    && GetEmailStatus(data) == Some(DeliveryDelayed)
    && emails[data.messageId].latestStatus == Some(DeliveryDelayed)
  }

  /** The notification goes past the short-circuits and writes the status. */
  predicate Accepted(emails: map<string, Email>, data: SesEvent)
  {
    Found(emails, data) && !RepeatedDelay(emails, data)
  }

  class SesHookStore {
    /** Email rows by SES message id. */
    var emails: map<string, Email>
    /** Daily usage rows. */
    var daily: map<DailyKey, Counters>
    /** Lifetime metric rows. */
    var cumulated: map<MetricsKey, Counters>
    /** The event log, oldest first. */
    var events: seq<EmailEvent>
    /** Contact rows, in table order. */
    var contacts: seq<Contact>
    /** Calls made to the unsubscribe service, in the order issued. */
    var unsubscribes: seq<UnsubscribeCall>
    /** Calls made to the campaign-analytics service. */
    var analytics: seq<AnalyticsCall>
    /** Calls made to the webhook service. */
    var webhooks: seq<WebhookCall>

    ghost predicate Valid()
      reads this
    {
      AnalyticsOnce(analytics, events)
    }

    constructor (initialEmails: map<string, Email>, initialContacts: seq<Contact>)
      ensures Valid()
      ensures emails == initialEmails && contacts == initialContacts
      ensures daily == map[] && cumulated == map[] && events == []
      ensures unsubscribes == [] && analytics == [] && webhooks == []
    {
      emails := initialEmails;
      contacts := initialContacts;
      daily := map[];
      cumulated := map[];
      events := [];
      unsubscribes := [];
      analytics := [];
      webhooks := [];
    }

    /**
     * The unsubscribe cascade for a campaign email. A campaign email without
     * a contact id is treated as one whose contact is not found.
     */
    method CheckUnsubscribe(
      contactId: Option<string>, campaignId: string, teamId: int, event: EmailStatus, mailData: SesEvent)
      modifies this`unsubscribes
      ensures unsubscribes == old(unsubscribes) + CascadeCalls(contacts, contactId, campaignId, teamId, event, mailData)
    {
      if CascadeFires(event, mailData) && contactId.Some? {
        var id := contactId.value;
        var contact := FindContact(contacts, id);
        if contact.None? {
          return;
        }
        var allContacts := SameEmailInTeam(contacts, contact.value.email, teamId);
        var allContactIds: seq<string> := [];
        var i := 0;
        while i < |allContacts|
          invariant 0 <= i <= |allContacts|
          invariant allContactIds == OtherIds(allContacts[..i], id)
        {
          assert allContacts[..i + 1][..i] == allContacts[..i];
          if allContacts[i].id != id {
            allContactIds := allContactIds + [allContacts[i].id];
          }
          i := i + 1;
        }
        assert allContacts[..i] == allContacts;
        var reason := ReasonFor(event);
        unsubscribes := unsubscribes + [UnsubscribeCall(id, Some(campaignId), reason)] + GlobalCalls(allContactIds, reason);
      }
    }

    /**
     * The state change of a notification that went past the short-circuits,
     * for the email stored under `sesEmailId` (as it was before), the
     * notification's status and payload:
     * - the status compare-and-set;
     * - a BOUNCED notification without bounce details throws after the
     *   status write;
     * - otherwise the usage counters are upserted, and then a campaign CLICKED
     *   notification without a link throws;
     * - otherwise the campaign follow-up, the event-log entry and the webhook
     *   call, and the handler returns true.
     */
    twostate predicate Applied(
      sesEmailId: string, email: Email, status: EmailStatus, mailData: Option<Payload>, data: SesEvent,
      today: string, baseUrl: string, webhookDelivered: bool, outcome: Outcome)
      reads this
    {
      && contacts == old(contacts)
      && emails == old(emails)[sesEmailId := email.(latestStatus := NextStatus(email.latestStatus, status))]
      && (BounceUnreadable(status, mailData) ==>
            && outcome == Threw
            && daily == old(daily) && cumulated == old(cumulated) && events == old(events)
            && unsubscribes == old(unsubscribes) && analytics == old(analytics) && webhooks == old(webhooks))
      && (!BounceUnreadable(status, mailData) ==>
            var hard := IsHardBounced(status, mailData);
            && daily == RecordDaily(old(daily), DailyKeyFor(email.teamId, email.domainId, today, email.campaignId.Some?), status, hard)
            && cumulated == RecordLifetime(old(cumulated), MetricsKeyFor(email.teamId, email.domainId), status, hard))
      && (!BounceUnreadable(status, mailData) && ClickUnreadable(email, status, mailData) ==>
            && outcome == Threw
            && events == old(events) && unsubscribes == old(unsubscribes)
            && analytics == old(analytics) && webhooks == old(webhooks))
      && (!BounceUnreadable(status, mailData) && !ClickUnreadable(email, status, mailData) ==>
            var followUp := CampaignFollowUp(email, status, mailData, baseUrl);
            && outcome == Returned(true)
            && unsubscribes == old(unsubscribes)
               + (if followUp then CascadeCalls(old(contacts), email.contactId, email.campaignId.value, email.teamId, status, data) else [])
            && analytics == old(analytics)
               + (if followUp && !HasEvent(old(events), email.id, status)
                  then [AnalyticsCall(email.id, email.campaignId.value, status, IsHardBounced(status, mailData))] else [])
            && events == old(events) + [EmailEvent(email.id, status, mailData)]
            && webhooks == old(webhooks)
               + (if ToWebhookEvent(status).Some?
                  then [WebhookCall(email.teamId, ToWebhookEvent(status).value, email.id, status, mailData, webhookDelivered)]
                  else []))
    }

    /**
     * Processes one SES notification. `today` is the current date, `baseUrl`
     * the platform's own URL, and `webhookDelivered` what the webhook service
     * answers; neither the result nor the state depends on that answer.
     */
    method ParseSesHook(data: SesEvent, today: string, baseUrl: string, webhookDelivered: bool)
      returns (outcome: Outcome)
      requires Valid()
      modifies this
      ensures Valid()
      // unknown event type, or no email with this SES message id: false, and nothing changes
      ensures !Found(old(emails), data) ==> outcome == Returned(false) && unchanged(this)
      // a repeated delay notice: true, and nothing changes
      ensures RepeatedDelay(old(emails), data) ==> outcome == Returned(true) && unchanged(this)
      ensures Accepted(old(emails), data) ==>
        Applied(data.messageId, old(emails)[data.messageId], GetEmailStatus(data).value, GetEmailData(data), data,
                today, baseUrl, webhookDelivered, outcome)
      // whenever the email is found, its status becomes the compare-and-set of the old one and the incoming one
      ensures Found(old(emails), data) ==>
        && data.messageId in emails
        && emails[data.messageId].latestStatus
           == NextStatus(old(emails)[data.messageId].latestStatus, GetEmailStatus(data).value)
    {
      var mailStatus := GetEmailStatus(data);
      if mailStatus.None? {
        return Returned(false);
      }
      var status := mailStatus.value;
      var sesEmailId := data.messageId;
      var mailData := GetEmailData(data);
      if sesEmailId !in emails {
        return Returned(false);
      }
      var email := emails[sesEmailId];
      if email.latestStatus == Some(DeliveryDelayed) && status == DeliveryDelayed {
        return Returned(true);
      }
      outcome := Apply(sesEmailId, email, status, mailData, data, today, baseUrl, webhookDelivered);
    }

    /** The handler after the short-circuits. */
    method Apply(
      sesEmailId: string, email: Email, status: EmailStatus, mailData: Option<Payload>, data: SesEvent,
      today: string, baseUrl: string, webhookDelivered: bool)
      returns (outcome: Outcome)
      requires Valid()
      requires sesEmailId in emails && emails[sesEmailId] == email
      modifies this
      ensures Valid()
      ensures Applied(sesEmailId, email, status, mailData, data, today, baseUrl, webhookDelivered, outcome)
    {
      emails := emails[sesEmailId := email.(latestStatus := NextStatus(email.latestStatus, status))];

      if BounceUnreadable(status, mailData) {
        outcome := Threw;
      } else {
        var isHardBounced := IsHardBounced(status, mailData);
        RecordUsage(email, status, isHardBounced, today);

        var threw := CampaignStep(email, status, mailData, data, isHardBounced, baseUrl);
        if threw {
          outcome := Threw;
        } else {
          ghost var calls := analytics[|old(analytics)|..];
          assert analytics == old(analytics) + calls;
          AnalyticsStepKeepsOnce(old(analytics), old(events), calls, EmailEvent(email.id, status, mailData));
          LogAndNotify(email, status, mailData, webhookDelivered);
          outcome := Returned(true);
        }
      }
    }

    /** The event-log append and the best-effort webhook trigger. */
    method LogAndNotify(email: Email, status: EmailStatus, mailData: Option<Payload>, webhookDelivered: bool)
      modifies this`events, this`webhooks
      ensures events == old(events) + [EmailEvent(email.id, status, mailData)]
      ensures webhooks == old(webhooks)
        + (if ToWebhookEvent(status).Some?
           then [WebhookCall(email.teamId, ToWebhookEvent(status).value, email.id, status, mailData, webhookDelivered)]
           else [])
    {
      events := events + [EmailEvent(email.id, status, mailData)];

      var webhookEvent := ToWebhookEvent(status);
      if webhookEvent.Some? {
        webhooks := webhooks + [WebhookCall(email.teamId, webhookEvent.value, email.id, status, mailData, webhookDelivered)];
      }
    }

    /** The daily and lifetime usage upserts for one notification. */
    method RecordUsage(email: Email, status: EmailStatus, isHardBounced: bool, today: string)
      modifies this`daily, this`cumulated
      ensures daily == RecordDaily(old(daily), DailyKeyFor(email.teamId, email.domainId, today, email.campaignId.Some?),
                                   status, isHardBounced)
      ensures cumulated == RecordLifetime(old(cumulated), MetricsKeyFor(email.teamId, email.domainId), status, isHardBounced)
    {
      if CountsDaily(status) {
        var updateField := UpdateField(status);
        daily := UpsertDaily(daily, DailyKeyFor(email.teamId, email.domainId, today, email.campaignId.Some?),
                             updateField, isHardBounced);
        // the column is "complained" or "delivered" exactly for COMPLAINED and DELIVERED
        if isHardBounced || status == Complained || status == Delivered {
          cumulated := UpsertLifetime(cumulated, MetricsKeyFor(email.teamId, email.domainId), updateField);
        }
      }
    }

    /**
     * The campaign part of the handler: unless the notification is a click on
     * the unsubscribe page, the unsubscribe cascade, then the analytics rollup
     * when the event log has no entry for this email and status yet.
     * `threw` reports a campaign click whose link cannot be read.
     */
    method CampaignStep(
      email: Email, status: EmailStatus, mailData: Option<Payload>, data: SesEvent,
      isHardBounced: bool, baseUrl: string)
      returns (threw: bool)
      modifies this`unsubscribes, this`analytics
      ensures threw == ClickUnreadable(email, status, mailData)
      ensures threw ==> unsubscribes == old(unsubscribes) && analytics == old(analytics)
      ensures !threw ==>
        var followUp := CampaignFollowUp(email, status, mailData, baseUrl);
        && unsubscribes == old(unsubscribes)
           + (if followUp then CascadeCalls(contacts, email.contactId, email.campaignId.value, email.teamId, status, data) else [])
        && analytics == old(analytics)
           + (if followUp && !HasEvent(events, email.id, status)
              then [AnalyticsCall(email.id, email.campaignId.value, status, isHardBounced)] else [])
    {
      threw := false;
      if email.campaignId.Some? {
        if status == Clicked && (mailData.None? || mailData.value.link.None?) {
          return true;
        }
        if status != Clicked || !(UnsubscribeUrl(baseUrl) <= mailData.value.link.value) {
          CheckUnsubscribe(email.contactId, email.campaignId.value, email.teamId, status, data);
          var mailEvent := HasEvent(events, email.id, status);
          if !mailEvent {
            analytics := analytics + [AnalyticsCall(email.id, email.campaignId.value, status, isHardBounced)];
          }
        }
      }
    }
  }
}

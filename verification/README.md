# SES delivery-notification handler, modelled in Dafny

This project models the handler that folds Amazon SES event-publishing
notifications into the email platform's state. The notifications are Send,
Delivery, Bounce, Complaint, Reject, Open, Click, Rendering Failure and
DeliveryDelay. The handler is `parseSesHook` in
`apps/web/src/server/service/ses-hook-parser.ts`. For one notification it:

- classifies the event type into a canonical `EmailStatus` and selects the
  event-specific payload;
- finds the email by its SES message id;
- applies the rank-conditioned compare-and-set to `latestStatus`, with a
  short-circuit for a repeated `DELIVERY_DELAYED`;
- upserts the daily usage row (team, domain or 0, date, MARKETING or
  TRANSACTIONAL) and, for a hard bounce, a complaint or a delivery, the
  lifetime row (team, domain or 0);
- for campaign emails, unless the event is a click on the platform's
  unsubscribe page, runs the unsubscribe cascade and calls campaign
  analytics when no earlier event-log entry has the same email and status;
- appends one event-log entry and triggers the webhook, whose failure is
  swallowed.

Files and modules:

- `common.dfy` (`Common`): `Option` and ASCII `toLowerCase`.
- `email_statuses.dfy` (`EmailStatuses`): the status enum and its explicit
  rank, the compare-and-set `NextStatus`, and lemmas showing that it keeps
  the highest-ranked status, in any delivery order.
- `ses_events.dfy` (`SesEvents`): the notification shape, `getEmailStatus`,
  `getEmailData` and `toWebhookEvent`. Each comes with a reference table and
  a lemma tying the two together.
- `usage.dfy` (`Usage`): counter rows as maps from column name to count, the
  daily and lifetime upserts, and their field-level effect.
- `ses_hook.dfy` (`SesHook`): the class `SesHookStore`. It holds the
  datastore (emails, daily rows, lifetime rows, event log, contacts) and one
  log per collaborator (unsubscribe, campaign analytics, webhook). Its
  methods are `ParseSesHook` and `CheckUnsubscribe`. `ParseSesHook` works
  through the helpers `Apply`, `RecordUsage`, `CampaignStep` and
  `LogAndNotify`, one per step of the source function. The class invariant
  says that analytics run at most once per (email, status).
- `scenarios.dfy` (`Scenarios`): a worked Send, Delivery, permanent-Bounce
  run of a campaign email, and its Send step run through the handler itself.

The handler's result is an `Outcome`: `Returned(false)`, `Returned(true)`
or `Threw`. The source throws a TypeError in two places:

- reading `bounceType` of a BOUNCED notification that has no bounce object
  (line 68);
- reading `link` of a campaign CLICKED notification that has no click link
  (line 141).

Both throws come after the status write, and the second also after the
usage upserts. The model keeps those partial writes.

Two behaviours of the code worth noting:

- On a hard bounce the lifetime row is incremented in the column named after
  the status, `bounced`, not `hardBounced` (lines 112-134).
  `HardBounceLifetimeRow` shows that the Send/Delivery/hard-Bounce run ends
  with `bounced` = 1 and `hardBounced` = 0 in the lifetime row.
- A new `DELIVERY_DELAYED` is not always accepted. Like every other status,
  it is written only when it outranks the stored status, or the stored
  status is unset or SCHEDULED (line 56). A repeated one is dropped before
  any write (lines 45-50).

The ordering of the status enum is not in the source files. The model fixes
it explicitly (`EmailStatuses.Rank`): SCHEDULED < SENT < DELIVERED <
DELIVERY_DELAYED < OPENED < CLICKED < BOUNCED < COMPLAINED < REJECTED <
RENDERING_FAILURE.

## Model

| member | source | states |
|---|---|---|
| `SesEvents.ClassifierRoundTrip` | apps/web/src/server/service/ses-hook-parser.ts:278-300 | a notification is classified as status s iff its event type is the SES event type of s in the reference table. Exactly nine event types have a status, each a different one, and every other event type has none |
| `SesEvents.GetEmailDataSelects` | apps/web/src/server/service/ses-hook-parser.ts:302-312 | for every classified notification the payload selector reads the property the reference table names for its status ("send", "bounce", "renderingFailure", "deliveryDelay", ...), or yields nothing when that property is absent |
| `SesEvents.LowerCasedEventTypes` | apps/web/src/server/service/ses-hook-parser.ts:310 | lower-casing Send, Delivery, Bounce, Complaint, Reject, Open and Click gives their payload property names |
| `SesEvents.PayloadKeyLowerCases` | apps/web/src/server/service/ses-hook-parser.ts:305-311 | for every event type, the selector reads the lower-cased event type exactly when the type is neither "Rendering Failure" nor "DeliveryDelay". For those two, lower-casing would name the wrong property, which is why they are special-cased |
| `SesEvents.WebhookRoundTrip` | apps/web/src/server/service/ses-hook-parser.ts:192-209 | a status maps to webhook event k iff k reports that status, so each of SENT, DELIVERED, OPENED, CLICKED, BOUNCED and COMPLAINED has its own event. SCHEDULED, DELIVERY_DELAYED, REJECTED and RENDERING_FAILURE have none |
| `EmailStatuses.NextStatusIsMax` | apps/web/src/server/service/ses-hook-parser.ts:53-61 | the compare-and-set leaves the higher-ranked of the stored and the incoming status. Its rank is never below the old status or the incoming one, and the result is one of the two |
| `EmailStatuses.NextStatusCommutes` | apps/web/src/server/service/ses-hook-parser.ts:53-61 | two notifications for one email leave the same `latestStatus` in either order |
| `EmailStatuses.ApplyAllIsMax` | apps/web/src/server/service/ses-hook-parser.ts:53-61 | after any series of notifications, `latestStatus` is the highest-ranked of the starting status and all delivered statuses |
| `EmailStatuses.ApplyAllOrderIndependent` | apps/web/src/server/service/ses-hook-parser.ts:53-61 | any reordering (same multiset) of the notifications leaves the same final `latestStatus` |
| `Usage.ColumnIsLowerCasedName` | apps/web/src/server/service/ses-hook-parser.ts:70-80 | a status is counted iff its enum name is in the handler's list of six, and the column it increments is its enum name lower-cased |
| `Usage.DailyCreateCount` | apps/web/src/server/service/ses-hook-parser.ts:91-103 | a newly created daily row holds 1 in the status column, 1 in `hardBounced` iff the event is a hard bounce, and 0 elsewhere |
| `Usage.RecordDailyEffect` | apps/web/src/server/service/ses-hook-parser.ts:63-110 | for the six counted statuses only the row under the given key changes, its status column rises by exactly 1 and `hardBounced` by 1 iff the event is a hard bounce. Every other column and row is unchanged. Other statuses leave the daily table unchanged |
| `Usage.RecordLifetimeEffect` | apps/web/src/server/service/ses-hook-parser.ts:112-135 | the lifetime table changes iff the status is DELIVERED, COMPLAINED or a hard BOUNCED. Then only the (team, domain) row changes: the status-named column rises by 1, so a hard bounce raises `bounced`, and `hardBounced` is untouched |
| `Usage.DailyTotals` | apps/web/src/server/service/ses-hook-parser.ts:82-110 | after a series of notifications under one key, each daily column equals its starting value plus the number of notifications it counts |
| `SesHook.FindContact` | apps/web/src/server/service/ses-hook-parser.ts:233-241 | the lookup returns a stored contact with the requested id, or nothing exactly when no contact has that id |
| `SesHook.SameEmailInTeam` | apps/web/src/server/service/ses-hook-parser.ts:243-250 | the query returns exactly the stored contacts with the given address in the contact books of the team |
| `SesHook.OtherIds` | apps/web/src/server/service/ses-hook-parser.ts:252-254 | the mapped and filtered list holds exactly the ids of the given contacts other than the triggering one |
| `SesHook.GlobalCallsTargets` | apps/web/src/server/service/ses-hook-parser.ts:265-273 | the contact-wide unsubscribe calls go to exactly the listed contact ids |
| `SesHook.OtherIdsInTeam` | apps/web/src/server/service/ses-hook-parser.ts:243-254 | the other ids of the same-address contacts are exactly the ids of the team's contacts with that address, other than the triggering one |
| `SesHook.CascadeTargets` | apps/web/src/server/service/ses-hook-parser.ts:211-276 | the cascade makes no call unless the event is a permanent bounce or a complaint and the contact exists. Otherwise the first call unsubscribes the triggering contact from the campaign. The remaining calls are contact-wide and go to exactly the team's other contacts with the same address. Every call has reason BOUNCED iff the event is BOUNCED, else COMPLAINED |
| `SesHook.CascadeConditionAgrees` | apps/web/src/server/service/ses-hook-parser.ts:228-231 | the cascade condition, read from the notification's bounce object, holds exactly for a hard bounce, as the handler computes it, or a complaint |
| `SesHook.AnalyticsStepKeepsOnce` | apps/web/src/server/service/ses-hook-parser.ts:151-174 | making at most one analytics call, only when the log has no entry for that email and status, and then logging such an entry keeps the invariant: every analytics call has a matching log entry and no two calls share an email and status |
| `SesHook.SesHookStore.CheckUnsubscribe` | apps/web/src/server/service/ses-hook-parser.ts:211-276 | the unsubscribe log grows by exactly the cascade's calls and nothing else changes. The map/filter loop's invariant keeps the collected ids equal to the other ids of the contacts scanned so far |
| `SesHook.SesHookStore.ParseSesHook` | apps/web/src/server/service/ses-hook-parser.ts:22-190 | an unknown event type, or no email with the message id, returns false and changes nothing. A repeated DELIVERY_DELAYED returns true and changes nothing. Otherwise the state changes as `Applied` describes. Whenever the email is found, its new status is the compare-and-set of the old one and the incoming one, so `ApplyAllIsMax` covers any series of handler calls. At-most-once analytics per (email, status) is preserved |
| `SesHook.SesHookStore.Apply` | apps/web/src/server/service/ses-hook-parser.ts:53-189 | status compare-and-set; a bounce without details throws and leaves everything else unchanged. Otherwise the usage upserts run, then a campaign click without a link throws. Otherwise: cascade and rollup only for campaign emails that are not unsubscribe clicks, the rollup only with no earlier (email, status) entry, exactly one log entry, and a webhook call only for the six mapped statuses. The result is true whatever the webhook answers |
| `SesHook.SesHookStore.RecordUsage` | apps/web/src/server/service/ses-hook-parser.ts:63-136 | the daily and lifetime tables become the upserts keyed by (team, domain or 0, date, MARKETING iff campaign) and (team, domain or 0) |
| `SesHook.SesHookStore.CampaignStep` | apps/web/src/server/service/ses-hook-parser.ts:138-166 | throws exactly for a campaign click without a link. Otherwise, for a campaign email that is not an unsubscribe-page click, it runs the cascade, and it makes the analytics call iff the log has no entry for the email and status |
| `SesHook.SesHookStore.LogAndNotify` | apps/web/src/server/service/ses-hook-parser.ts:168-189 | the log grows by exactly one entry (email, status, payload). The webhook log grows by one call iff the status has a webhook event |
| `Scenarios.HardBounceStatus` | apps/web/src/server/service/ses-hook-parser.ts:53-61 | Send, Delivery and Bounce, in order or reordered, leave the email BOUNCED |
| `Scenarios.HardBounceDailyRow` | apps/web/src/server/service/ses-hook-parser.ts:63-110 | the three notifications leave sent, delivered, bounced and hardBounced at 1 and the other columns at 0 in the daily row |
| `Scenarios.HardBounceLifetimeRow` | apps/web/src/server/service/ses-hook-parser.ts:112-135 | the three notifications leave the lifetime row with delivered 1, bounced 1, hardBounced 0 |
| `Scenarios.SendThroughHandler` | apps/web/src/server/service/ses-hook-parser.ts:22-190 | the example's Send notification, run through the handler on a fresh store: the result is true and the email becomes SENT. The day's MARKETING row for (team 1, domain 7) counts one send, and the lifetime table stays empty. There are no unsubscribes, one rollup call, one event-log entry and one EMAIL_SENT webhook call |
| `Scenarios.HardBounceCascade` | apps/web/src/server/service/ses-hook-parser.ts:211-276 | the permanent bounce unsubscribes k1 from the campaign and k2, which has the same address in the team, from everything. Contacts in another team or with another address are left alone |

## Left out

- The `SesHookParser` class (apps/web/src/server/service/ses-hook-parser.ts:314-341) is left out. It is BullMQ queue and worker setup over Redis with concurrency 200: transport and concurrency plumbing.
- Concurrent workers and races are not modelled. The atomic conditional status update and the upserts are single steps of one sequential store.
- Datastore failures are not modelled. In the source they throw, and the queue retries. Only the two TypeErrors above are modelled as `Threw`.
- `console.error` logging is not modelled.
- The current date and the platform URL are parameters (`today`, `baseUrl`) instead of `new Date()` and the environment.
- `unsubscribeContact`, `updateCampaignAnalytics` and `WebhookService.triggerWebhook` are not part of this model. Each call is recorded in a log. The webhook's answer is the `webhookDelivered` parameter, stored in the call record and otherwise ignored.
- The concurrent issue order of `Promise.all` is not modelled. The unsubscribe calls are recorded in array order: the triggering contact first, then the others in table order.
- `SesHook.SesHookStore.CheckUnsubscribe`: a campaign email without a contact id is treated as one whose contact is not found. What the datastore does with an undefined id is not part of this model.
- Notification payloads keep only the two properties the handler reads (`bounceType`, `link`). The event log stores that reduced payload.
- `toLowerCase` is modelled on ASCII only. The strings it is applied to here are fixed ASCII names.
- The datastore schema, including which lifetime columns exist, is not part of this model. Counter rows are maps from column name to count, so the model assumes the lifetime row has a `bounced` column. If it did not, the datastore would reject the upsert at lines 117-134 and the handler would throw after the daily upsert. A hard bounce would then get no cascade, no analytics call and no event-log entry.
- `SesHook.SesHookStore.RecordUsage` tests `status == Complained || status == Delivered` where the source tests the column name. `Usage.ColumnIsLowerCasedName` shows that the two tests are equivalent.
- apps/web/src/app/layout.tsx is left out: a UI root layout with no logic of this handler.

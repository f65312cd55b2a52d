/**
 * A worked example: a campaign email of team 1, domain 7, whose contact k1
 * shares its address with contact k2 of the same team, receives Send,
 * Delivery and a permanent Bounce in that order.
 */
module Scenarios {
  import opened Common
  import opened EmailStatuses
  import opened SesEvents
  import opened Usage
  import opened SesHook

  /** The notifications as the counters see them. */
  function HardBounceNotices(): seq<Notice>
  {
    [Notice(Sent, false), Notice(Delivered, false), Notice(Bounced, true)]
  }

  /** The email's status ends BOUNCED, whatever order the three arrive in. */
  lemma HardBounceStatus()
    ensures ApplyAll(Some(Scheduled), [Sent, Delivered, Bounced]) == Some(Bounced)
    ensures ApplyAll(Some(Scheduled), [Bounced, Sent, Delivered]) == Some(Bounced)
  {
    ApplyAllOrderIndependent(Some(Scheduled), [Sent, Delivered, Bounced], [Bounced, Sent, Delivered]);
  }

  /** The day's MARKETING row counts one send, one delivery, one bounce and one hard bounce. */
  lemma HardBounceDailyRow(key: DailyKey)
    ensures var row := RowOf(RecordDailyAll(map[], key, HardBounceNotices()), key);
      && Count(row, "sent") == 1 && Count(row, "delivered") == 1
      && Count(row, "bounced") == 1 && Count(row, "hardBounced") == 1
      && Count(row, "opened") == 0 && Count(row, "clicked") == 0 && Count(row, "complained") == 0
  {
    var ns := HardBounceNotices();
    assert ns[1..] == [Notice(Delivered, false), Notice(Bounced, true)];
    assert ns[1..][1..] == [Notice(Bounced, true)];
    var d1 := RecordDaily(map[], key, Sent, false);
    assert d1[key] == DailyCreate("sent", false);
    var d2 := RecordDaily(d1, key, Delivered, false);
    assert d2[key] == Inc(DailyCreate("sent", false), "delivered");
    var d3 := RecordDaily(d2, key, Bounced, true);
    assert d3[key] == Inc(Inc(Inc(DailyCreate("sent", false), "delivered"), "bounced"), "hardBounced");
    assert RecordDailyAll(map[], key, ns) == d3;
  }

  /**
   * The lifetime row counts one delivery and one bounce: the hard bounce
   * raises `bounced` and leaves `hardBounced` at 0.
   */
  lemma HardBounceLifetimeRow(key: MetricsKey)
    ensures var lifetime := RowOf(
        RecordLifetime(RecordLifetime(RecordLifetime(map[], key, Sent, false), key, Delivered, false), key, Bounced, true),
        key);
      && Count(lifetime, "delivered") == 1 && Count(lifetime, "bounced") == 1
      && Count(lifetime, "hardBounced") == 0 && Count(lifetime, "sent") == 0
  {
    var m1 := RecordLifetime(map[], key, Sent, false);
    assert m1 == map[];
    var m2 := RecordLifetime(m1, key, Delivered, false);
    assert m2[key] == map["delivered" := 1];
    var m3 := RecordLifetime(m2, key, Bounced, true);
    assert m3[key] == map["delivered" := 1, "bounced" := 1];
  }

  /**
   * The permanent bounce unsubscribes k1 from campaign c1 and k2, which has
   * k1's address in team 1, from everything; k3 (same address, another team)
   * and k4 (another address) are left alone.
   */
  lemma HardBounceCascade(contacts: seq<Contact>)
    requires contacts == [Contact("k1", "a@x", 1), Contact("k2", "a@x", 1), Contact("k3", "a@x", 2), Contact("k4", "b@x", 1)]
    ensures CascadeCalls(contacts, Some("k1"), "c1", 1, Bounced, SesEvent("Bounce", "m1", map["bounce" := Payload(Some("Permanent"), None)]))
         == [UnsubscribeCall("k1", Some("c1"), ReasonBounced), UnsubscribeCall("k2", None, ReasonBounced)]
  {
    assert FindContact(contacts, "k1") == Some(contacts[0]);
    assert SameEmailInTeam(contacts[3..], "a@x", 1) == [];
    assert contacts[2..][1..] == contacts[3..];
    assert SameEmailInTeam(contacts[2..], "a@x", 1) == [];
    assert contacts[1..][1..] == contacts[2..];
    assert SameEmailInTeam(contacts[1..], "a@x", 1) == [contacts[1]];
    var all := SameEmailInTeam(contacts, "a@x", 1);
    assert all == [contacts[0], contacts[1]];
    assert all[..1] == [contacts[0]];
    assert OtherIds(all[..1], "k1") == [];
    assert OtherIds(all, "k1") == ["k2"];
  }
  /**
   * The first step of the example through the handler itself: the Send
   * notification of the campaign email, received on 2024-05-01. The email
   * becomes SENT, the day's MARKETING row for team 1 and domain 7 counts one
   * send, and the lifetime table is untouched. No one is unsubscribed, the
   * campaign rollup is called once, one event is logged and one EMAIL_SENT
   * webhook goes out.
   */
  method SendThroughHandler(contacts: seq<Contact>) returns (store: SesHookStore, outcome: Outcome)
    ensures outcome == Returned(true)
    ensures "m1" in store.emails && store.emails["m1"].latestStatus == Some(Sent)
    ensures DailyKey(1, 7, "2024-05-01", Marketing) in store.daily
    ensures Count(store.daily[DailyKey(1, 7, "2024-05-01", Marketing)], "sent") == 1
    ensures Count(store.daily[DailyKey(1, 7, "2024-05-01", Marketing)], "delivered") == 0
    ensures store.cumulated == map[]
    ensures store.unsubscribes == []
    ensures store.analytics == [AnalyticsCall("e1", "c1", Sent, false)]
    ensures store.events == [EmailEvent("e1", Sent, Some(Payload(None, None)))]
    ensures store.webhooks == [WebhookCall(1, EmailSent, "e1", Sent, Some(Payload(None, None)), true)]
  {
    var email := Email("e1", Some(Scheduled), 1, Some(7), Some("c1"), Some("k1"));
    store := new SesHookStore(map["m1" := email], contacts);
    var send := SesEvent("Send", "m1", map["send" := Payload(None, None)]);
    LowerCasedEventTypes();
    outcome := store.ParseSesHook(send, "2024-05-01", "https://app.example", true);
  }
}

/**
 * Usage aggregation: the daily counter row keyed by (team, domain, date,
 * marketing or transactional) and the lifetime counter row keyed by
 * (team, domain), each upserted with an increment of the column named
 * after the status.
 */
module Usage {
  import opened Common
  import opened EmailStatuses

  /** A counter row: column name to count; a column the row lacks reads as 0. */
  type Counters = map<string, nat>

  function Count(row: Counters, column: string): nat
  {
    if column in row then row[column] else 0
  }

  /** The atomic `{ increment: 1 }` of one column. */
  function Inc(row: Counters, column: string): Counters
  {
    row[column := Count(row, column) + 1]
  }

  /** The row stored under a key, or the empty row when there is none yet. */
  function RowOf<K>(table: map<K, Counters>, key: K): Counters
  {
    if key in table then table[key] else map[]
  }

  datatype EmailType = Marketing | Transactional

  datatype DailyKey = DailyKey(teamId: int, domainId: int, date: string, kind: EmailType)

  datatype MetricsKey = MetricsKey(teamId: int, domainId: int)

  /** The daily row's key: an unset domain counts as domain 0, a campaign email as MARKETING. */
  function DailyKeyFor(teamId: int, domainId: Option<int>, date: string, isCampaign: bool): DailyKey
  {
    DailyKey(teamId, if domainId.Some? then domainId.value else 0, date,
             if isCampaign then Marketing else Transactional)
  }

  /** The lifetime row's key: an unset domain counts as domain 0. */
  function MetricsKeyFor(teamId: int, domainId: Option<int>): MetricsKey
  {
    MetricsKey(teamId, if domainId.Some? then domainId.value else 0)
  }

  /**
   * The counter column a status is recorded in, if any: the six statuses
   * SENT, DELIVERED, OPENED, CLICKED, BOUNCED and COMPLAINED, each in the
   * column named by its lower-cased enum name.
   */
  function StatusColumn(s: EmailStatus): Option<string>
  {
    match s
    case Sent => Some("sent")
    case Delivered => Some("delivered")
    case Opened => Some("opened")
    case Clicked => Some("clicked")
    case Bounced => Some("bounced")
    case Complained => Some("complained")
    case _ => None
  }

  /** Whether a status is one of the six the daily counters record. */
  predicate CountsDaily(s: EmailStatus)
  {
    StatusColumn(s).Some?
  }

  /** The column a counted status increments. */
  function UpdateField(s: EmailStatus): string
    requires CountsDaily(s)
  {
    StatusColumn(s).value
  }

  /** The list of enum names the daily counters accept. */
  const DailyStatusNames: seq<string> := ["DELIVERED", "OPENED", "CLICKED", "BOUNCED", "COMPLAINED", "SENT"]

  /**
   * The column table agrees with the handler's own formulation: a status is
   * counted iff its enum name is in the accepted list, and its column is the
   * enum name lower-cased.
   */
  lemma ColumnIsLowerCasedName(s: EmailStatus)
    ensures CountsDaily(s) <==> StatusName(s) in DailyStatusNames
    ensures CountsDaily(s) ==> UpdateField(s) == ToLower(StatusName(s))
  {
    match s {
      case Sent => assert ToLower("SENT") == "sent";
      case Delivered => assert ToLower("DELIVERED") == "delivered";
      case Opened => assert ToLower("OPENED") == "opened";
      case Clicked => assert ToLower("CLICKED") == "clicked";
      case Bounced => assert ToLower("BOUNCED") == "bounced";
      case Complained => assert ToLower("COMPLAINED") == "complained";
      case Scheduled => assert StatusName(s)[1] == 'C';
      case DeliveryDelayed => assert StatusName(s)[8] == '_';
      case Rejected => assert StatusName(s)[0] == 'R';
      case RenderingFailure => assert StatusName(s)[0] == 'R';
    }
  }

  /** The row created on the first counted event of a key: 1 in the status column, 0 elsewhere. */
  function DailyCreate(column: string, hard: bool): Counters
  {
    map[
      "delivered" := if column == "delivered" then 1 else 0,
      "opened" := if column == "opened" then 1 else 0,
      "clicked" := if column == "clicked" then 1 else 0,
      "bounced" := if column == "bounced" then 1 else 0,
      "complained" := if column == "complained" then 1 else 0,
      "sent" := if column == "sent" then 1 else 0,
      "hardBounced" := if hard then 1 else 0
    ]
  }

  /** Upsert of the daily row: create it seeded, or increment the column (and `hardBounced`). */
  function UpsertDaily(daily: map<DailyKey, Counters>, key: DailyKey, column: string, hard: bool): map<DailyKey, Counters>
  {
    if key in daily then
      var row := Inc(daily[key], column);
      daily[key := if hard then Inc(row, "hardBounced") else row]
    else
      daily[key := DailyCreate(column, hard)]
  }

  /** The daily-usage step: only the six counted statuses touch the daily table. */
  function RecordDaily(daily: map<DailyKey, Counters>, key: DailyKey, s: EmailStatus, hard: bool): map<DailyKey, Counters>
  {
    if CountsDaily(s) then UpsertDaily(daily, key, UpdateField(s), hard) else daily
  }

  /** Whether the lifetime row is touched: a hard bounce, a complaint or a delivery. */
  predicate CountsLifetime(s: EmailStatus, hard: bool)
  {
    CountsDaily(s) && (hard || s == Complained || s == Delivered)
  }

  /** Upsert of the lifetime row: create it with 1 in the column, or increment the column. */
  function UpsertLifetime(metrics: map<MetricsKey, Counters>, key: MetricsKey, column: string): map<MetricsKey, Counters>
  {
    metrics[key := if key in metrics then Inc(metrics[key], column) else map[column := 1]]
  }

  /** The lifetime-metrics step. */
  function RecordLifetime(metrics: map<MetricsKey, Counters>, key: MetricsKey, s: EmailStatus, hard: bool): map<MetricsKey, Counters>
  {
    if CountsLifetime(s, hard) then UpsertLifetime(metrics, key, UpdateField(s)) else metrics
  }

  /** The change one counted event makes to one column of a daily row. */
  function DailyDelta(s: EmailStatus, hard: bool, column: string): nat
  {
    (if StatusColumn(s) == Some(column) then 1 else 0)
    + (if hard && StatusColumn(s).Some? && column == "hardBounced" then 1 else 0)
  }

  /**
   * For SENT, DELIVERED, OPENED, CLICKED, BOUNCED and COMPLAINED exactly one
   * daily row, the one under `key`, changes: its status column rises by one,
   * `hardBounced` rises by one iff the event is a hard bounce, every other
   * column and every other row stay as they were. For the other statuses the
   * daily table does not change.
   */
  lemma RecordDailyEffect(daily: map<DailyKey, Counters>, key: DailyKey, s: EmailStatus, hard: bool)
    ensures !CountsDaily(s) ==> RecordDaily(daily, key, s, hard) == daily
    ensures CountsDaily(s) ==>
      var after := RecordDaily(daily, key, s, hard);
      && after.Keys == daily.Keys + {key}
      && (forall k :: k in daily && k != key ==> after[k] == daily[k])
      && (forall c :: Count(after[key], c) == Count(RowOf(daily, key), c) + DailyDelta(s, hard, c))
  {
    if CountsDaily(s) {
      var after := RecordDaily(daily, key, s, hard);
      var column := UpdateField(s);
      assert column != "hardBounced";
      forall c
        ensures Count(after[key], c) == Count(RowOf(daily, key), c) + DailyDelta(s, hard, c)
      {
        if key !in daily {
          DailyCreateCount(column, hard, c);
        }
      }
    }
  }

  /** The created row holds 1 in the status column and, for a hard bounce, in `hardBounced`. */
  lemma DailyCreateCount(column: string, hard: bool, c: string)
    requires column in ["delivered", "opened", "clicked", "bounced", "complained", "sent"]
    ensures Count(DailyCreate(column, hard), c) == (if c == column then 1 else 0) + (if hard && c == "hardBounced" then 1 else 0)
  {
  }

  /**
   * Only a hard bounce, a complaint or a delivery touches the lifetime row,
   * and it increments the column named after the status: a hard bounce
   * raises `bounced`, never `hardBounced`.
   */
  lemma RecordLifetimeEffect(metrics: map<MetricsKey, Counters>, key: MetricsKey, s: EmailStatus, hard: bool)
    requires hard ==> s == Bounced
    ensures RecordLifetime(metrics, key, s, hard) != metrics <==>
      (s == Delivered || s == Complained || (s == Bounced && hard))
    ensures (s == Delivered || s == Complained || (s == Bounced && hard)) ==>
      var after := RecordLifetime(metrics, key, s, hard);
      && after.Keys == metrics.Keys + {key}
      && (forall k :: k in metrics && k != key ==> after[k] == metrics[k])
      && (forall c :: Count(after[key], c) == Count(RowOf(metrics, key), c) + (if StatusColumn(s) == Some(c) then 1 else 0))
      && Count(after[key], "hardBounced") == Count(RowOf(metrics, key), "hardBounced")
  {
    var after := RecordLifetime(metrics, key, s, hard);
    if CountsLifetime(s, hard) {
      var c := UpdateField(s);
      assert Count(after[key], c) == Count(RowOf(metrics, key), c) + 1;
    }
  }

  /** One notification as the counters see it: its status and whether it is a hard bounce. */
  datatype Notice = Notice(status: EmailStatus, hard: bool)

  /** The daily table after a series of notifications recorded under one key. */
  function RecordDailyAll(daily: map<DailyKey, Counters>, key: DailyKey, ns: seq<Notice>): map<DailyKey, Counters>
    decreases |ns|
  {
    if ns == [] then daily
    else RecordDailyAll(RecordDaily(daily, key, ns[0].status, ns[0].hard), key, ns[1..])
  }

  /** How many of the notifications a column should count. */
  function Tally(ns: seq<Notice>, column: string): nat
    decreases |ns|
  {
    if ns == [] then 0 else DailyDelta(ns[0].status, ns[0].hard, column) + Tally(ns[1..], column)
  }

  /**
   * A daily row's columns equal their starting values plus the number of
   * counted notifications recorded under its key.
   */
  lemma {:induction false} DailyTotals(daily: map<DailyKey, Counters>, key: DailyKey, ns: seq<Notice>, column: string)
    ensures Count(RowOf(RecordDailyAll(daily, key, ns), key), column) == Count(RowOf(daily, key), column) + Tally(ns, column)
    decreases |ns|
  {
    if ns != [] {
      var next := RecordDaily(daily, key, ns[0].status, ns[0].hard);
      RecordDailyEffect(daily, key, ns[0].status, ns[0].hard);
      DailyTotals(next, key, ns[1..], column);
    }
  }
}

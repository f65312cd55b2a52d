/**
 * The canonical email status, its priority rank, and the rank-conditioned
 * compare-and-set that the handler applies to an email's `latestStatus`.
 */
module EmailStatuses {
  import opened Common

  /** The canonical delivery status of one email, listed in rank order. */
  datatype EmailStatus =
    | Scheduled
    | Sent
    | Delivered
    | DeliveryDelayed
    | Opened
    | Clicked
    | Bounced
    | Complained
    | Rejected
    | RenderingFailure

  /**
   * Priority rank of a status. The datastore compares enum values by their
   * declaration order; this model fixes that order explicitly:
   * SCHEDULED < SENT < DELIVERED < DELIVERY_DELAYED < OPENED < CLICKED
   * < BOUNCED < COMPLAINED < REJECTED < RENDERING_FAILURE.
   */
  function Rank(s: EmailStatus): nat
  {
    match s
    case Scheduled => 0
    case Sent => 1
    case Delivered => 2
    case DeliveryDelayed => 3
    case Opened => 4
    case Clicked => 5
    case Bounced => 6
    case Complained => 7
    case Rejected => 8
    case RenderingFailure => 9
  }

  /** The stored enum value's name. */
  function StatusName(s: EmailStatus): string
  {
    match s
    case Scheduled => "SCHEDULED"
    case Sent => "SENT"
    case Delivered => "DELIVERED"
    case DeliveryDelayed => "DELIVERY_DELAYED"
    case Opened => "OPENED"
    case Clicked => "CLICKED"
    case Bounced => "BOUNCED"
    case Complained => "COMPLAINED"
    case Rejected => "REJECTED"
    case RenderingFailure => "RENDERING_FAILURE"
  }

  /** Rank of a possibly unset `latestStatus`; unset ranks below everything. */
  function OptRank(s: Option<EmailStatus>): int
  {
    if s.None? then -1 else Rank(s.value)
  }

  /** Two statuses of equal rank are the same status: the rank is a total order. */
  lemma RankInjective(a: EmailStatus, b: EmailStatus)
    ensures Rank(a) == Rank(b) <==> a == b
  {
  }

  /**
   * The conditional update of `latestStatus`: the incoming status is written
   * when it outranks the stored one, or the stored one is unset or SCHEDULED;
   * otherwise the stored status is kept.
   */
  function NextStatus(current: Option<EmailStatus>, incoming: EmailStatus): Option<EmailStatus>
  {
    if current.None? || Rank(incoming) > Rank(current.value) || current.value == Scheduled
    then Some(incoming)
    else current
  }

  /** Reference definition: of two possibly unset statuses, the higher-ranked one. */
  function MaxByRank(a: Option<EmailStatus>, b: Option<EmailStatus>): Option<EmailStatus>
  {
    if OptRank(a) >= OptRank(b) then a else b
  }

  /**
   * The compare-and-set keeps exactly the higher-ranked of the stored and the
   * incoming status, so the rank of `latestStatus` never decreases and never
   * ends below the incoming status.
   */
  lemma NextStatusIsMax(current: Option<EmailStatus>, incoming: EmailStatus)
    ensures NextStatus(current, incoming) == MaxByRank(current, Some(incoming))
    ensures OptRank(NextStatus(current, incoming)) >= OptRank(current)
    ensures OptRank(NextStatus(current, incoming)) >= Rank(incoming)
    ensures NextStatus(current, incoming) == current || NextStatus(current, incoming) == Some(incoming)
  {
    if current.Some? && current.value == Scheduled {
      RankInjective(incoming, Scheduled);
    }
  }

  /** Two notifications for one email leave the same status whichever is applied first. */
  lemma NextStatusCommutes(current: Option<EmailStatus>, a: EmailStatus, b: EmailStatus)
    ensures NextStatus(NextStatus(current, a), b) == NextStatus(NextStatus(current, b), a)
  {
    NextStatusIsMax(current, a);
    NextStatusIsMax(current, b);
    NextStatusIsMax(NextStatus(current, a), b);
    NextStatusIsMax(NextStatus(current, b), a);
    RankInjective(a, b);
  }

  /** The status left after a series of notifications is applied in order. */
  function ApplyAll(current: Option<EmailStatus>, incoming: seq<EmailStatus>): Option<EmailStatus>
    decreases |incoming|
  {
    if incoming == [] then current
    else ApplyAll(NextStatus(current, incoming[0]), incoming[1..])
  }

  /** `r` is the highest-ranked of the starting status and the incoming ones. */
  ghost predicate IsRankMax(current: Option<EmailStatus>, incoming: seq<EmailStatus>, r: Option<EmailStatus>)
  {
    && OptRank(current) <= OptRank(r)
    && (forall i :: 0 <= i < |incoming| ==> Rank(incoming[i]) <= OptRank(r))
    && (r == current || exists i :: 0 <= i < |incoming| && r == Some(incoming[i]))
  }

  /**
   * Whatever order the notifications arrive in, the final `latestStatus` is
   * the highest-ranked status among the starting one and all delivered ones.
   */
  lemma {:induction false} ApplyAllIsMax(current: Option<EmailStatus>, incoming: seq<EmailStatus>)
    ensures IsRankMax(current, incoming, ApplyAll(current, incoming))
    decreases |incoming|
  {
    if incoming != [] {
      var next := NextStatus(current, incoming[0]);
      var rest := incoming[1..];
      NextStatusIsMax(current, incoming[0]);
      ApplyAllIsMax(next, rest);
      var r := ApplyAll(next, rest);
      assert r == ApplyAll(current, incoming);
      forall i | 0 <= i < |incoming|
        ensures Rank(incoming[i]) <= OptRank(r)
      {
        if i > 0 {
          assert incoming[i] == rest[i - 1];
        }
      }
      if r == next {
        if next != current {
          assert r == Some(incoming[0]);
        }
      } else {
        var j :| 0 <= j < |rest| && r == Some(rest[j]);
        assert r == Some(incoming[j + 1]);
      }
    }
  }

  /** The highest-ranked status among a starting status and a series is unique. */
  lemma RankMaxUnique(current: Option<EmailStatus>, incoming: seq<EmailStatus>, r1: Option<EmailStatus>, r2: Option<EmailStatus>)
    requires IsRankMax(current, incoming, r1)
    requires IsRankMax(current, incoming, r2)
    ensures r1 == r2
  {
    assert OptRank(r1) == OptRank(r2);
    if r1.Some? && r2.Some? {
      RankInjective(r1.value, r2.value);
    }
  }

  /**
   * Delivery order does not matter: any reordering of the same notifications
   * leaves the same final `latestStatus`.
   */
  lemma ApplyAllOrderIndependent(current: Option<EmailStatus>, xs: seq<EmailStatus>, ys: seq<EmailStatus>)
    requires multiset(xs) == multiset(ys)
    ensures ApplyAll(current, xs) == ApplyAll(current, ys)
  {
    var r := ApplyAll(current, xs);
    ApplyAllIsMax(current, xs);
    ApplyAllIsMax(current, ys);
    forall i | 0 <= i < |ys|
      ensures Rank(ys[i]) <= OptRank(r)
    {
      assert ys[i] in multiset(xs);
    }
    if r != current {
      var j :| 0 <= j < |xs| && r == Some(xs[j]);
      assert xs[j] in multiset(ys);
      var k :| 0 <= k < |ys| && ys[k] == xs[j];
    }
    RankMaxUnique(current, ys, r, ApplyAll(current, ys));
  }
}

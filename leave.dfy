/** Leave requests (src/components/portal/LeaveView.tsx): submitting a
    request, the admin's decision, the length of a leave in days, the
    pending/processed split and the badge colours. */
module Leave {
  import opened Wrappers
  import opened Data
  import opened Dates
  import Seqs

  /** The Approve and Reject buttons are shown for this request. */
  predicate ShowsDecision(role: string, r: LeaveRequest)
  {
    IsAdmin(role) && r.status == ApprovalStatus.Pending
  }

  /** The request `handleSubmit` builds from the form on day `today`. */
  function NewRequest(now: int, applicant: string, kind: LeaveType, startDate: string, endDate: string,
                      reason: string, today: Date): LeaveRequest
    requires Valid(today) && today.year < 1000000
  {
    LeaveRequest(now, applicant, kind, startDate, endDate, reason, ApprovalStatus.Pending, FormatIso(today))
  }

  /** A new request is pending and records the day it was filed. */
  lemma NewRequestIsPending(now: int, applicant: string, kind: LeaveType, startDate: string, endDate: string,
                            reason: string, today: Date)
    requires Valid(today) && today.year <= 9999
    ensures NewRequest(now, applicant, kind, startDate, endDate, reason, today).status == ApprovalStatus.Pending
    ensures ParseIso(NewRequest(now, applicant, kind, startDate, endDate, reason, today).appliedOn) == Some(today)
  {
    ParseFormatIso(today);
  }

  /** The list after `handleSubmit`: the new request goes in front. */
  function Submitted(requests: seq<LeaveRequest>, r: LeaveRequest): (u: seq<LeaveRequest>)
    ensures |u| == |requests| + 1 && u[0] == r && u[1..] == requests
  {
    [r] + requests
  }

  function SetStatus(r: LeaveRequest, id: int, status: ApprovalStatus): LeaveRequest
  {
    if r.id == id then r.(status := status) else r
  }

  /** The list after `updateStatus(id, status)`. */
  function StatusUpdated(requests: seq<LeaveRequest>, id: int, status: ApprovalStatus): (u: seq<LeaveRequest>)
    ensures |u| == |requests|
    ensures forall i :: 0 <= i < |u| && requests[i].id != id ==> u[i] == requests[i]
    ensures forall i :: 0 <= i < |u| && requests[i].id == id ==> u[i] == requests[i].(status := status)
  {
    seq(|requests|, i requires 0 <= i < |requests| => SetStatus(requests[i], id, status))
  }

  /** A decision is final: after `updateStatus` approves or rejects a
      request, every request with that id shows nobody the Approve and Reject
      buttons, so no second decision can be taken on it. */
  lemma DecisionIsFinal(requests: seq<LeaveRequest>, id: int, status: ApprovalStatus, role: string)
    requires status != ApprovalStatus.Pending
    ensures var u := StatusUpdated(requests, id, status);
            forall i :: 0 <= i < |u| && requests[i].id == id ==> u[i].status == status && !ShowsDecision(role, u[i])
  {
  }

  /** `Math.ceil(a / b)` for whole a >= 0 and b > 0. */
  function CeilDiv(a: nat, b: nat): nat
    requires b > 0
  {
    (a + b - 1) / b
  }

  /** A whole number of days rounds up to itself. */
  lemma CeilDaysOfMultiple(k: nat)
    ensures CeilDiv(k * MsPerDay, MsPerDay) == k
  {
  }

  function Abs(x: int): nat
  {
    if x < 0 then -x else x
  }

  /** `getDaysCount(start, end)`; `None` is the `NaN` an unreadable date
      gives. */
  function DaysCount(start: string, end: string): (n: Option<int>)
    ensures n.Some? <==> ParseIso(start).Some? && ParseIso(end).Some?
  {
    match (ParseIso(start), ParseIso(end))
    case (Some(s), Some(e)) => Some(DaysOf(s, e))
    case _ => None
  }

  /** The count for two readable dates: the whole days, rounded up, of
      the distance of their time values, plus one. */
  function DaysOf(s: Date, e: Date): int
    requires Valid(s) && Valid(e)
  {
    var diffTime := Abs(TimeValue(e) - TimeValue(s));
    CeilDiv(diffTime, MsPerDay) + 1
  }

  /** The count is the number of calendar days from one date to the other,
      both ends included: at least 1 and the same either way round. */
  lemma DaysCountInclusive(start: string, end: string)
    requires ParseIso(start).Some? && ParseIso(end).Some?
    ensures DaysCount(start, end) ==
            Some(Abs(DayNumber(ParseIso(end).value) - DayNumber(ParseIso(start).value)) + 1)
    ensures DaysCount(start, end).value >= 1
    ensures DaysCount(start, end) == DaysCount(end, start)
  {
    var s, e := ParseIso(start).value, ParseIso(end).value;
    DaysCountOf(start, end, s, e);
    DaysCountOf(end, start, e, s);
    assert Abs(DayNumber(e) - DayNumber(s)) == Abs(DayNumber(s) - DayNumber(e));
  }

  lemma DaysCountOf(start: string, end: string, s: Date, e: Date)
    requires ParseIso(start) == Some(s) && ParseIso(end) == Some(e)
    ensures DaysCount(start, end) == Some(Abs(DayNumber(e) - DayNumber(s)) + 1)
  {
    DaysBetween(s, e);
  }

  /** The rounded-up day count between two valid dates is the distance of
      their day numbers. */
  lemma DaysBetween(s: Date, e: Date)
    requires Valid(s) && Valid(e)
    ensures DaysOf(s, e) == Abs(DayNumber(e) - DayNumber(s)) + 1
  {
    var k := Abs(DayNumber(e) - DayNumber(s));
    ScaledDistance(DayNumber(s), DayNumber(e));
    CeilDaysOfMultiple(k);
  }

  lemma ScaledDistance(x: int, y: int)
    ensures Abs(y * MsPerDay - x * MsPerDay) == Abs(y - x) * MsPerDay
  {
    assert y * MsPerDay - x * MsPerDay == (y - x) * MsPerDay;
    assert x * MsPerDay - y * MsPerDay == (x - y) * MsPerDay;
  }

  /** `getLeaveTypeColor`. */
  function LeaveTypeColor(kind: LeaveType): Variant
  {
    match kind
    case Annual => InfoVariant
    case Sick => Destructive
    case Personal => Warning
    case Emergency => Destructive
  }

  /** `getStatusVariant`. */
  function StatusVariant(status: ApprovalStatus): (v: Variant)
    ensures v == Success <==> status == Approved
    ensures v == Destructive <==> status == Rejected
    ensures v == Warning <==> status == ApprovalStatus.Pending
  {
    match status
    case Approved => Success
    case Rejected => Destructive
    case _ => Warning
  }

  function IsPending(r: LeaveRequest): bool
  {
    r.status == ApprovalStatus.Pending
  }

  function NotPending(r: LeaveRequest): bool
  {
    r.status != ApprovalStatus.Pending
  }

  /** `pendingRequests` and `otherRequests`. */
  function PendingRequests(requests: seq<LeaveRequest>): seq<LeaveRequest>
  {
    Seqs.Filter(requests, IsPending)
  }

  function OtherRequests(requests: seq<LeaveRequest>): seq<LeaveRequest>
  {
    Seqs.Filter(requests, NotPending)
  }

  /** The two groups split the list: each request lands in exactly one of
      them, and each group keeps the list's order. */
  lemma PendingSplit(requests: seq<LeaveRequest>, r: LeaveRequest)
    ensures multiset(PendingRequests(requests)) + multiset(OtherRequests(requests)) == multiset(requests)
    ensures r in PendingRequests(requests) <==> r in requests && r.status == ApprovalStatus.Pending
    ensures r in OtherRequests(requests) <==> r in requests && r.status != ApprovalStatus.Pending
    ensures Seqs.IsSubsequence(PendingRequests(requests), requests)
    ensures Seqs.IsSubsequence(OtherRequests(requests), requests)
  {
    Seqs.TwoWaySplit(requests, IsPending, NotPending);
    Seqs.FilterMembership(requests, IsPending, r);
    Seqs.FilterMembership(requests, NotPending, r);
    Seqs.FilterIsSubsequence(requests, IsPending);
    Seqs.FilterIsSubsequence(requests, NotPending);
  }

  /** The view's state: the request list. */
  class LeaveView {
    var requests: seq<LeaveRequest>

    constructor(saved: Option<seq<LeaveRequest>>)
      ensures requests == saved.GetOr(DefaultLeaveRequests)
    {
      requests := saved.GetOr(DefaultLeaveRequests);
    }

    method HandleSubmit(now: int, applicant: string, kind: LeaveType, startDate: string, endDate: string,
                        reason: string, today: Date)
      requires Valid(today) && today.year < 1000000
      modifies this
      ensures requests == Submitted(old(requests), NewRequest(now, applicant, kind, startDate, endDate, reason, today))
    {
      requests := Submitted(requests, NewRequest(now, applicant, kind, startDate, endDate, reason, today));
    }

    method UpdateStatus(id: int, status: ApprovalStatus)
      modifies this
      ensures requests == StatusUpdated(old(requests), id, status)
    {
      requests := StatusUpdated(requests, id, status);
    }

    /** Pressing Approve or Reject on a request whose buttons are shown. */
    method Decide(role: string, k: nat, approve: bool)
      requires k < |requests| && ShowsDecision(role, requests[k])
      modifies this
      ensures requests == StatusUpdated(old(requests), old(requests)[k].id, if approve then Approved else Rejected)
    {
      UpdateStatus(requests[k].id, if approve then Approved else Rejected);
    }
  }
}

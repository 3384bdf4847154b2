/** Meetings (src/components/portal/MeetingsView.tsx): scheduling keeps the
    list ordered by date, deleting removes by id, the list splits into
    upcoming and past against the clock, and a card's colour follows the
    meeting type. */
module Meetings {
  import opened Wrappers
  import opened Text
  import opened Data
  import opened Dates
  import Seqs
  import Sorting

  /** `new Date(m.date).getTime()`; `None` is `NaN`. */
  function Key(m: Meeting): Option<int>
  {
    match ParseIso(m.date)
    case Some(d) => Some(TimeValue(d))
    case None => None
  }

  predicate HasValidDate(m: Meeting)
  {
    Key(m).Some?
  }

  predicate AllDated(s: seq<Meeting>)
  {
    Sorting.AllKeyed(s, Key)
  }

  /** Dates never decrease along the list. */
  predicate SortedByDate(s: seq<Meeting>)
    requires AllDated(s)
  {
    Sorting.Sorted(s, Key)
  }

  /** `.sort((a, b) => new Date(a.date).getTime() - new Date(b.date).getTime())`. */
  function SortByDate(s: seq<Meeting>): (r: seq<Meeting>)
    ensures |r| == |s| && multiset(r) == multiset(s)
  {
    Sorting.SortBy(s, Key)
  }

  /** The meeting `scheduleMeeting` builds from the form. */
  function NewMeeting(now: int, title: string, date: string, time: string, kind: string, createdBy: string): Meeting
  {
    Meeting(now, title, date, time, kind, Some(createdBy), Some([]))
  }

  /** The list after `scheduleMeeting`: the new meeting is added and the
      whole list is sorted again. */
  function Scheduled(meetings: seq<Meeting>, m: Meeting): (r: seq<Meeting>)
    ensures |r| == |meetings| + 1
    ensures multiset(r) == multiset(meetings) + multiset{m}
    ensures m in r
  {
    assert multiset(meetings + [m]) == multiset(meetings) + multiset{m};
    var r := SortByDate(meetings + [m]);
    assert m in multiset(r);
    r
  }

  /** After scheduling, the list holds the form's meeting, stamped with the
      clock, created by the user and with no attendees. */
  lemma ScheduledByUser(meetings: seq<Meeting>, now: int, title: string, date: string, time: string, kind: string, user: string)
    ensures exists i :: 0 <= i < |Scheduled(meetings, NewMeeting(now, title, date, time, kind, user))|
              && var m := Scheduled(meetings, NewMeeting(now, title, date, time, kind, user))[i];
                 m.id == now && m.title == title && m.date == date && m.time == time && m.kind == kind
                 && m.createdBy == Some(user) && m.attendees == Some([])
  {
    var r := Scheduled(meetings, NewMeeting(now, title, date, time, kind, user));
    var i :| 0 <= i < |r| && r[i] == NewMeeting(now, title, date, time, kind, user);
  }

  /** With readable dates throughout, the scheduled list is ordered. */
  lemma ScheduledSorted(meetings: seq<Meeting>, m: Meeting)
    requires AllDated(meetings) && HasValidDate(m)
    ensures AllDated(Scheduled(meetings, m)) && SortedByDate(Scheduled(meetings, m))
  {
    var s := meetings + [m];
    assert AllDated(s) by {
      forall i | 0 <= i < |s| ensures HasValidDate(s[i]) {
        if i < |meetings| {
          assert s[i] == meetings[i];
        }
      }
    }
    Sorting.SortBySorted(s, Key);
  }

  /** The list after `deleteMeeting(id)`. */
  function Deleted(meetings: seq<Meeting>, id: int): (r: seq<Meeting>)
    ensures forall i :: 0 <= i < |r| ==> r[i].id != id
  {
    Seqs.Filter(meetings, (m: Meeting) => m.id != id)
  }

  /** Deleting keeps exactly the meetings with another id, in order. */
  lemma DeletedKeepsOthers(meetings: seq<Meeting>, id: int, m: Meeting)
    ensures m in Deleted(meetings, id) <==> m in meetings && m.id != id
    ensures Seqs.IsSubsequence(Deleted(meetings, id), meetings)
  {
    Seqs.FilterMembership(meetings, (m: Meeting) => m.id != id, m);
    Seqs.FilterIsSubsequence(meetings, (m: Meeting) => m.id != id);
  }

  /** `new Date(m.date) >= new Date()`, the clock reading `nowMs`. */
  function IsUpcoming(nowMs: int): Meeting -> bool
  {
    (m: Meeting) => Key(m).Some? && Key(m).value >= nowMs
  }

  /** `new Date(m.date) < new Date()`. */
  function IsPast(nowMs: int): Meeting -> bool
  {
    (m: Meeting) => Key(m).Some? && Key(m).value < nowMs
  }

  function Upcoming(meetings: seq<Meeting>, nowMs: int): seq<Meeting>
  {
    Seqs.Filter(meetings, IsUpcoming(nowMs))
  }

  function Past(meetings: seq<Meeting>, nowMs: int): seq<Meeting>
  {
    Seqs.Filter(meetings, IsPast(nowMs))
  }

  /** A meeting with a readable date is in exactly one of the two lists;
      one without is in neither. */
  lemma UpcomingPastSplit(meetings: seq<Meeting>, nowMs: int, m: Meeting)
    ensures m in Upcoming(meetings, nowMs) <==> m in meetings && HasValidDate(m) && Key(m).value >= nowMs
    ensures m in Past(meetings, nowMs) <==> m in meetings && HasValidDate(m) && Key(m).value < nowMs
    ensures !(m in Upcoming(meetings, nowMs) && m in Past(meetings, nowMs))
  {
    Seqs.FilterMembership(meetings, IsUpcoming(nowMs), m);
    Seqs.FilterMembership(meetings, IsPast(nowMs), m);
  }

  /** When every date is readable the two lists partition the meetings. */
  lemma UpcomingPastPartition(s: seq<Meeting>, nowMs: int)
    requires AllDated(s)
    ensures multiset(Upcoming(s, nowMs)) + multiset(Past(s, nowMs)) == multiset(s)
  {
    forall i | 0 <= i < |s|
      ensures IsPast(nowMs)(s[i]) == !IsUpcoming(nowMs)(s[i])
    {
      assert HasValidDate(s[i]);
    }
    Seqs.TwoWaySplit(s, IsUpcoming(nowMs), IsPast(nowMs));
  }

  /** `getMeetingTypeColor` of the meeting card: "online" wins over
      "person", matched without regard to case. */
  function TypeColor(kind: string): Variant
  {
    if Contains(ToLower(kind), "online") then InfoVariant
    else if Contains(ToLower(kind), "person") then Success
    else Warning
  }

  /** Changing the case of the type never changes the colour. */
  lemma TypeColorIgnoresCase(kind: string)
    ensures TypeColor(ToLower(kind)) == TypeColor(kind)
  {
    ToLowerIdempotent(kind);
  }

  // The form's choices get their own colours.

  lemma OnlineColor()
    ensures TypeColor("Online") == InfoVariant
  {
    assert ToLower("Online") == "online";
    assert OccursAt("online", "online", 0);
  }

  lemma InPersonColor()
    ensures TypeColor("In-Person") == Success
  {
    assert ToLower("In-Person") == "in-person";
    assert OccursAt("in-person", "person", 3);
    forall i | 0 <= i <= 3 ensures !OccursAt("in-person", "online", i) {
      FirstCharMismatch("in-person", "online", i);
    }
  }

  lemma HybridColor()
    ensures TypeColor("Hybrid") == Warning
  {
    assert ToLower("Hybrid") == "hybrid";
    FirstCharMismatch("hybrid", "online", 0);
    FirstCharMismatch("hybrid", "person", 0);
  }

  /** The view's state: the meeting list and the scheduling form. */
  class MeetingsView {
    var meetings: seq<Meeting>
    var title: string
    var date: string
    var time: string
    var kind: string

    constructor(saved: Option<seq<Meeting>>)
      ensures meetings == saved.GetOr(DefaultMeetings)
      ensures title == "" && date == "" && time == "" && kind == "Online"
    {
      meetings := saved.GetOr(DefaultMeetings);
      title, date, time, kind := "", "", "", "Online";
    }

    method SetForm(title': string, date': string, time': string, kind': string)
      modifies this
      ensures meetings == old(meetings)
      ensures title == title' && date == date' && time == time' && kind == kind'
    {
      title, date, time, kind := title', date', time', kind';
    }

    /** `scheduleMeeting`: add, sort, and reset the form. */
    method ScheduleMeeting(now: int, userName: string)
      modifies this
      ensures meetings == Scheduled(old(meetings), NewMeeting(now, old(title), old(date), old(time), old(kind), userName))
      ensures title == "" && date == "" && time == "" && kind == "Online"
    {
      meetings := Scheduled(meetings, NewMeeting(now, title, date, time, kind, userName));
      title, date, time, kind := "", "", "", "Online";
    }

    method DeleteMeeting(id: int)
      modifies this
      ensures meetings == Deleted(old(meetings), id)
      ensures title == old(title) && date == old(date) && time == old(time) && kind == old(kind)
    {
      meetings := Deleted(meetings, id);
    }
  }
}

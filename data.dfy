/** The records the portal keeps in its list stores, and the datasets a
    store starts from when nothing was saved (src/lib/data.ts).  Optional
    fields of the TypeScript interfaces are `Option`s; string unions are
    enumerations. */
module Data {
  import opened Wrappers
  import Seqs

  datatype PostType = Urgent | Update | Info

  datatype Post = Post(id: int, author: string, role: string, content: string, date: string, kind: PostType)

  datatype Event = Event(id: int, title: string, date: string, time: string, location: string, kind: Option<string>)

  datatype TaskStatus = Pending | Completed | InProgress

  datatype Priority = Low | Medium | High

  datatype Task = Task(id: int, title: string, status: TaskStatus, priority: Option<Priority>,
                       dueDate: Option<string>, assignee: Option<string>)

  datatype Meeting = Meeting(id: int, title: string, date: string, time: string, kind: string,
                             createdBy: Option<string>, attendees: Option<seq<string>>)

  /** The status of an expense claim and of a leave request. */
  datatype ApprovalStatus = Pending | Approved | Rejected

  /** `isAdmin` of the finance and leave views: the role is the state
      administrator's. */
  predicate IsAdmin(role: string)
  {
    role == "STATE_ADMIN"
  }

  datatype Claim = Claim(id: int, claimant: string, desc: string, amount: real, date: string,
                         status: ApprovalStatus, proof: string, category: Option<string>)

  datatype PollStatus = Active | Closed

  datatype PollOption = PollOption(id: string, text: string, votes: int)

  datatype Poll = Poll(id: int, question: string, status: PollStatus, totalVotes: int,
                       options: seq<PollOption>, userVoted: Option<string>, endDate: Option<string>)

  datatype Presence = Online | Busy | Offline

  datatype TeamMember = TeamMember(uid: int, name: string, email: string, status: Presence, role: string,
                                   department: string, avatar: Option<string>, phone: Option<string>)

  datatype LeaveType = Annual | Sick | Personal | Emergency

  datatype LeaveRequest = LeaveRequest(id: int, applicant: string, kind: LeaveType, startDate: string,
                                       endDate: string, reason: string, status: ApprovalStatus, appliedOn: string)

  datatype NotificationType = InfoNotice | WarningNotice | SuccessNotice | UrgentNotice

  datatype Notification = Notification(id: int, title: string, message: string, kind: NotificationType,
                                       timestamp: string, read: bool, actionUrl: Option<string>)

  /** The colour variants of the status badges and buttons. */
  datatype Variant = Success | Warning | Destructive | InfoVariant | Outline | DefaultVariant

  /** No two entries share an id. */
  predicate UniqueIds(ids: seq<int>)
  {
    forall i, j :: 0 <= i < j < |ids| ==> ids[i] != ids[j]
  }

  /** The ids of a list, read with `id`. */
  function Ids<T>(s: seq<T>, id: T -> int): (r: seq<int>)
    ensures |r| == |s| && forall i :: 0 <= i < |s| ==> r[i] == id(s[i])
  {
    seq(|s|, i requires 0 <= i < |s| => id(s[i]))
  }

  /** Filtering a list keeps its ids distinct. */
  lemma {:induction false} FilterKeepsUniqueIds<T>(s: seq<T>, p: T -> bool, id: T -> int)
    requires UniqueIds(Ids(s, id))
    ensures UniqueIds(Ids(Seqs.Filter(s, p), id))
  {
    if |s| > 0 {
      var t := s[1..];
      assert UniqueIds(Ids(t, id)) by {
        forall i, j | 0 <= i < j < |t| ensures id(t[i]) != id(t[j]) {
          assert t[i] == s[i + 1] && t[j] == s[j + 1];
        }
      }
      FilterKeepsUniqueIds(t, p, id);
      var rest := Seqs.Filter(t, p);
      if p(s[0]) {
        forall k | 0 <= k < |rest| ensures id(rest[k]) != id(s[0]) {
          assert rest[k] in multiset(t);
          var j :| 0 <= j < |t| && t[j] == rest[k];
          assert s[j + 1] == rest[k];
        }
        PrependKeepsUniqueIds(s[0], rest, id);
      }
    }
  }

  /** Putting an entry with an unused id in front keeps the ids distinct. */
  lemma PrependKeepsUniqueIds<T>(x: T, s: seq<T>, id: T -> int)
    requires UniqueIds(Ids(s, id))
    requires forall i :: 0 <= i < |s| ==> id(s[i]) != id(x)
    ensures UniqueIds(Ids([x] + s, id))
  {
    var u := [x] + s;
    forall i, j | 0 <= i < j < |u| ensures id(u[i]) != id(u[j]) {
      if i > 0 {
        assert u[i] == s[i - 1] && u[j] == s[j - 1];
      } else {
        assert u[j] == s[j - 1];
      }
    }
  }

  // ---------------------------------------------------------------------
  // default datasets

  const DefaultPosts: seq<Post> := [
    Post(1, "State Secretary", "ADMIN",
         "\U{26A0}\U{FE0F} Urgent: All District Associations must submit their qualified player lists for the State Championship by this Friday, 5 PM.",
         "2 hrs ago", Urgent),
    Post(2, "Event Coordinator", "MEMBER",
         "The venue for the Grand Finals has been confirmed: Rajiv Gandhi Indoor Stadium, Kochi. Floor plan attached in Library.",
         "5 hrs ago", Update),
    Post(3, "Technical Lead", "EMPLOYEE",
         "New streaming equipment has arrived. Team leads, please schedule pickup from HQ. Training session on Saturday.",
         "1 day ago", Info)
  ]

  const DefaultEvents: seq<Event> := [
    Event(1, "State Committee Meeting", "2025-12-15", "10:00 AM", "Kochi HQ", Some("Meeting")),
    Event(2, "District Qualifiers (Online)", "2025-12-20", "09:00 AM", "Discord", Some("Tournament")),
    Event(3, "Annual General Body", "2026-01-05", "11:00 AM", "Trivandrum", Some("Meeting")),
    Event(4, "Sponsor Meet & Greet", "2026-01-10", "02:00 PM", "Virtual", Some("External"))
  ]

  const DefaultTasks: seq<Task> := [
    Task(1, "Finalize venue for Kochi qualifiers", TaskStatus.Pending, Some(High), Some("2025-12-18"), None),
    Task(2, "Send invites to district heads", Completed, Some(Medium), None, None),
    Task(3, "Review sponsorship proposals", InProgress, Some(High), Some("2025-12-20"), None),
    Task(4, "Update website with new schedule", TaskStatus.Pending, Some(Low), None, None)
  ]

  const DefaultMeetings: seq<Meeting> := [
    Meeting(1, "Core Team Sync", "2025-12-12", "10:00", "Online", None, Some(["Rahul", "Sarah", "Vishnu"])),
    Meeting(2, "Budget Review", "2025-12-14", "14:00", "In-Person", None, Some(["Finance Team"]))
  ]

  const DefaultClaims: seq<Claim> := [
    Claim(1, "Rahul (TVM)", "Venue Advance - District Qualifiers", 15000.0, "2025-12-01",
          ApprovalStatus.Pending, "receipt_001.jpg", Some("Venue")),
    Claim(2, "Vishnu (Tech)", "Server Hosting (AWS) - Dec 2025", 4500.0, "2025-12-05",
          Approved, "aws_inv.pdf", Some("Technology")),
    Claim(3, "Sarah (EKM)", "Refreshments for Committee Meet", 1200.0, "2025-11-28",
          Rejected, "food_bill.jpg", Some("Events"))
  ]

  const DefaultPolls: seq<Poll> := [
    Poll(1, "Select Venue for State Grand Finals 2025", Active, 12,
         [PollOption("a", "Rajiv Gandhi Stadium, Kochi", 8), PollOption("b", "Jimmy George Stadium, TVM", 4)],
         None, Some("2025-12-30")),
    Poll(2, "Should we include 'Valorant' in the official roster?", Closed, 25,
         [PollOption("a", "Yes", 20), PollOption("b", "No", 5)],
         Some("a"), None)
  ]

  const DefaultTeam: seq<TeamMember> := [
    TeamMember(1, "Arjun Kumar", "arjun@akef.in", Online, "General Secretary", "State Office", None, Some("+91 98765 43210")),
    TeamMember(2, "Rahul Menon", "rahul@akef.in", Online, "District Secretary", "Trivandrum", None, Some("+91 98765 43211")),
    TeamMember(3, "Sarah Thomas", "sarah@akef.in", Busy, "District President", "Ernakulam", None, Some("+91 98765 43212")),
    TeamMember(4, "Vishnu Nair", "vishnu@akef.in", Offline, "Technical Lead", "Technology", None, Some("+91 98765 43213")),
    TeamMember(5, "Anjali Krishnan", "anjali@akef.in", Online, "HR Manager", "Human Resources", None, Some("+91 98765 43214")),
    TeamMember(6, "Mohammed Rizwan", "rizwan@akef.in", Online, "Finance Head", "Finance", None, Some("+91 98765 43215"))
  ]

  const DefaultLeaveRequests: seq<LeaveRequest> := [
    LeaveRequest(1, "Vishnu Nair", Annual, "2025-12-23", "2025-12-27", "Family vacation",
                 ApprovalStatus.Pending, "2025-12-10"),
    LeaveRequest(2, "Sarah Thomas", Sick, "2025-12-05", "2025-12-06", "Medical appointment",
                 Approved, "2025-12-04")
  ]

  const DefaultNotifications: seq<Notification> := [
    Notification(1, "New Expense Claim", "Rahul submitted a new expense claim for \U{20B9}15,000", InfoNotice,
                 "2 hours ago", false, None),
    Notification(2, "Meeting Reminder", "Core Team Sync starts in 1 hour", WarningNotice,
                 "1 hour ago", false, None),
    Notification(3, "Poll Ending Soon", "Venue selection poll closes in 24 hours", UrgentNotice,
                 "30 mins ago", false, None)
  ]

  /** Ids numbered 1, 2, 3, ... in order are distinct. */
  lemma NumberedIds<T>(s: seq<T>, id: T -> int)
    requires forall i :: 0 <= i < |s| ==> id(s[i]) == i + 1
    ensures UniqueIds(Ids(s, id))
  {
  }

  // Every default dataset has distinct ids.

  lemma PostIdsUnique()
    ensures UniqueIds(Ids(DefaultPosts, (p: Post) => p.id))
  {
    NumberedIds(DefaultPosts, (p: Post) => p.id);
  }

  lemma EventIdsUnique()
    ensures UniqueIds(Ids(DefaultEvents, (e: Event) => e.id))
  {
    NumberedIds(DefaultEvents, (e: Event) => e.id);
  }

  lemma TaskIdsUnique()
    ensures UniqueIds(Ids(DefaultTasks, (t: Task) => t.id))
  {
    NumberedIds(DefaultTasks, (t: Task) => t.id);
  }

  lemma MeetingIdsUnique()
    ensures UniqueIds(Ids(DefaultMeetings, (m: Meeting) => m.id))
  {
    NumberedIds(DefaultMeetings, (m: Meeting) => m.id);
  }

  lemma ClaimIdsUnique()
    ensures UniqueIds(Ids(DefaultClaims, (c: Claim) => c.id))
  {
    NumberedIds(DefaultClaims, (c: Claim) => c.id);
  }

  lemma PollIdsUnique()
    ensures UniqueIds(Ids(DefaultPolls, (p: Poll) => p.id))
  {
    NumberedIds(DefaultPolls, (p: Poll) => p.id);
  }

  lemma TeamUidsUnique()
    ensures UniqueIds(Ids(DefaultTeam, (m: TeamMember) => m.uid))
  {
    NumberedIds(DefaultTeam, (m: TeamMember) => m.uid);
  }

  lemma LeaveIdsUnique()
    ensures UniqueIds(Ids(DefaultLeaveRequests, (l: LeaveRequest) => l.id))
  {
    NumberedIds(DefaultLeaveRequests, (l: LeaveRequest) => l.id);
  }

  lemma NotificationIdsUnique()
    ensures UniqueIds(Ids(DefaultNotifications, (n: Notification) => n.id))
  {
    NumberedIds(DefaultNotifications, (n: Notification) => n.id);
  }

}

/** The events calendar (src/components/portal/CalendarView.tsx): the edit
    form and the record it is filled from, the checks and normalisation
    applied on save, the events shown for a day, and the status colours.
    The rows live in a hosted table; the request sent to it is modelled as
    a value and the table itself is left out. */
module CalendarView {
  import opened Wrappers
  import opened Text
  import opened Data
  import opened Dates
  import opened Numbers
  import Seqs

  /** A row of the events table; `null` columns are `None`. */
  datatype FestEvent = FestEvent(
    id: string, collegeName: string, festName: Option<string>, eventDate: string,
    noOfDays: Option<int>, eventType: Option<string>, requirement: Option<string>,
    internetAccess: Option<string>, contactName: Option<string>, phoneNumber: Option<string>,
    status: string, cost: Option<real>, update1: Option<string>, update2: Option<string>,
    update3: Option<string>, createdBy: Option<string>)

  /** The form: every column but `id` and `created_by`.  The text inputs
      always hold strings and the day count is never zero; the cost is
      empty or the `parseFloat` of the cost input. */
  datatype EventForm = EventForm(
    collegeName: string, festName: string, eventDate: string, noOfDays: int,
    eventType: string, requirement: string, internetAccess: string,
    contactName: string, phoneNumber: string, status: string, cost: Option<JsNumber>,
    update1: string, update2: string, update3: string)

  /** The choices of the status drop-down. */
  const StatusOptions: seq<string> := ["Pending", "Accepted", "Rejected", "Awaiting Confirmation", "Completed"]

  /** `initialFormState`; `today` is the date the page was loaded on. */
  function InitialForm(today: string): EventForm
  {
    EventForm("", "", today, 1, "", "", "", "", "", "Pending", None, "", "", "")
  }

  /** `n || 1` on a day count: a missing, zero or unreadable count is one. */
  function DaysOr1(n: Option<int>): (r: int)
    ensures r != 0
    ensures n.Some? && n.value != 0 ==> r == n.value
    ensures n.None? || n.value == 0 ==> r == 1
  {
    if n.Some? && n.value != 0 then n.value else 1
  }

  /** The cost column as the form holds it. */
  function CostInput(c: Option<real>): Option<JsNumber>
  {
    match c
    case Some(x) => Some(Num(x))
    case None => None
  }

  /** `handleEdit`: the form filled from a row. */
  function FormOf(e: FestEvent): (f: EventForm)
    ensures f.collegeName == e.collegeName && f.eventDate == e.eventDate && f.status == e.status
    ensures f.cost == CostInput(e.cost)
    ensures f.noOfDays == DaysOr1(e.noOfDays)
    ensures e.festName.None? ==> f.festName == ""
    ensures e.festName.Some? ==> f.festName == e.festName.value
    ensures e.contactName.None? ==> f.contactName == ""
    ensures e.contactName.Some? ==> f.contactName == e.contactName.value
  {
    EventForm(e.collegeName, e.festName.GetOr(""), e.eventDate, DaysOr1(e.noOfDays),
              e.eventType.GetOr(""), e.requirement.GetOr(""), e.internetAccess.GetOr(""),
              e.contactName.GetOr(""), e.phoneNumber.GetOr(""), e.status, CostInput(e.cost),
              e.update1.GetOr(""), e.update2.GetOr(""), e.update3.GetOr(""))
  }

  /** `formData.cost || null`: a zero, `NaN` or empty cost is saved as
      `null`, any other cost as itself. */
  function SavedCost(c: Option<JsNumber>): (r: Option<real>)
    ensures r.None? <==> c.None? || !Truthy(c.value)
    ensures r.Some? ==> c == Some(Num(r.value)) && r.value != 0.0
  {
    if c.Some? && Truthy(c.value) then Some(c.value.value) else None
  }

  /** The columns a save writes: the form with the normalised cost. */
  datatype Payload = Payload(form: EventForm, cost: Option<real>)

  /** What `handleSave` sends: nothing when the college name is blank, an
      update of the edited row, or an insert stamped with the user's id. */
  datatype SaveRequest = Refused | UpdateRow(id: string, payload: Payload) | InsertRow(payload: Payload, createdBy: Option<string>)

  function SaveRequestFor(editing: Option<FestEvent>, f: EventForm, user: Option<string>): (r: SaveRequest)
    ensures r.Refused? <==> IsBlank(f.collegeName)
    ensures !r.Refused? ==> r.payload == Payload(f, SavedCost(f.cost))
    ensures r.UpdateRow? <==> !IsBlank(f.collegeName) && editing.Some?
    ensures r.UpdateRow? ==> r.id == editing.value.id
    ensures r.InsertRow? ==> r.createdBy == user
  {
    if IsBlank(f.collegeName) then Refused
    else match editing
      case Some(e) => UpdateRow(e.id, Payload(f, SavedCost(f.cost)))
      case None => InsertRow(Payload(f, SavedCost(f.cost)), user)
  }

  /** The row after the table applies an update with `p`. */
  function Applied(e: FestEvent, p: Payload): FestEvent
  {
    var f := p.form;
    FestEvent(e.id, f.collegeName, Some(f.festName), f.eventDate, Some(f.noOfDays), Some(f.eventType),
              Some(f.requirement), Some(f.internetAccess), Some(f.contactName), Some(f.phoneNumber),
              f.status, p.cost, Some(f.update1), Some(f.update2), Some(f.update3), e.createdBy)
  }

  /** Opening a row for editing and saving it unchanged sends an update of
      that row that turns its `null` texts into empty ones, a missing or
      zero day count into one and a zero cost into `null`, and keeps
      everything else. */
  lemma EditThenSave(e: FestEvent, user: Option<string>)
    requires !IsBlank(e.collegeName)
    ensures var r := SaveRequestFor(Some(e), FormOf(e), user);
      && r.UpdateRow? && r.id == e.id
      && var n := Applied(e, r.payload);
      && n.collegeName == e.collegeName && n.eventDate == e.eventDate && n.status == e.status
      && n.festName == Some(e.festName.GetOr("")) && n.update3 == Some(e.update3.GetOr(""))
      && n.noOfDays == Some(DaysOr1(e.noOfDays))
      && n.cost == (if e.cost == Some(0.0) then None else e.cost)
      && n.createdBy == e.createdBy
  {
  }

  /** A row with no `null` text, a non-zero day count and no zero cost is
      written back exactly as it was. */
  lemma EditRoundTrip(e: FestEvent, user: Option<string>)
    requires !IsBlank(e.collegeName)
    requires e.festName.Some? && e.eventType.Some? && e.requirement.Some? && e.internetAccess.Some?
    requires e.contactName.Some? && e.phoneNumber.Some?
    requires e.update1.Some? && e.update2.Some? && e.update3.Some?
    requires e.noOfDays.Some? && e.noOfDays.value != 0
    requires e.cost != Some(0.0)
    ensures var r := SaveRequestFor(Some(e), FormOf(e), user);
      r.UpdateRow? && Applied(e, r.payload) == e
  {
    var r := SaveRequestFor(Some(e), FormOf(e), user);
    assert r.payload.cost == e.cost;
  }

  /** A date the view formats with `format(d, 'yyyy-MM-dd')`. */
  predicate Shown(d: Date)
  {
    Valid(d) && d.year <= 9999
  }

  /** `handleAddNew`: an empty form dated on the selected day, or today
      when no day is selected. */
  function NewForm(initial: EventForm, selected: Option<Date>, today: Date): (f: EventForm)
    requires Shown(today) && (selected.Some? ==> Shown(selected.value))
    ensures f == initial.(eventDate := f.eventDate)
    ensures selected.Some? ==> ParseIso(f.eventDate) == selected
    ensures selected.None? ==> ParseIso(f.eventDate) == Some(today)
  {
    var d := if selected.Some? then selected.value else today;
    ParseFormatIso(d);
    initial.(eventDate := FormatIso(d))
  }

  /** `isSameDay(new Date(event.event_date), d)`, with the time zone taken
      as UTC; an unreadable date is on no day. */
  function OnDay(d: Date): FestEvent -> bool
  {
    (e: FestEvent) => ParseIso(e.eventDate) == Some(d)
  }

  /** `getEventsForDate`. */
  function EventsForDate(events: seq<FestEvent>, d: Date): seq<FestEvent>
  {
    Seqs.Filter(events, OnDay(d))
  }

  /** The events of a day are exactly the events whose date text is that
      day's, in their order. */
  lemma EventsForDateExactly(events: seq<FestEvent>, d: Date, e: FestEvent)
    requires Shown(d)
    ensures e in EventsForDate(events, d) <==> e in events && e.eventDate == FormatIso(d)
    ensures Seqs.IsSubsequence(EventsForDate(events, d), events)
  {
    Seqs.FilterMembership(events, OnDay(d), e);
    Seqs.FilterIsSubsequence(events, OnDay(d));
    ParseFormatIso(d);
    if ParseIso(e.eventDate) == Some(d) {
      FormatParseIso(e.eventDate);
    }
  }

  /** `getStatusColor`, matched on the lower-cased status. */
  function StatusColor(status: string): (v: Variant)
    ensures v == Success <==> ToLower(status) == "accepted" || ToLower(status) == "completed"
    ensures v == Warning <==> ToLower(status) == "pending" || ToLower(status) == "awaiting confirmation"
    ensures v == Destructive <==> ToLower(status) == "rejected"
    ensures v == Success || v == Warning || v == Destructive || v == DefaultVariant
  {
    var s := ToLower(status);
    if s == "accepted" || s == "completed" then Success
    else if s == "pending" || s == "awaiting confirmation" then Warning
    else if s == "rejected" then Destructive
    else DefaultVariant
  }

  /** The colour does not depend on the case of the status. */
  lemma StatusColorIgnoresCase(status: string)
    ensures StatusColor(ToLower(status)) == StatusColor(status)
  {
    ToLowerIdempotent(status);
  }

  /** Each status of the drop-down gets its own colour. */
  lemma StatusColorOfOptions()
    ensures StatusColor(StatusOptions[0]) == Warning
    ensures StatusColor(StatusOptions[1]) == Success
    ensures StatusColor(StatusOptions[2]) == Destructive
    ensures StatusColor(StatusOptions[3]) == Warning
    ensures StatusColor(StatusOptions[4]) == Success
  {
    assert StatusOptions == ["Pending", "Accepted", "Rejected", "Awaiting Confirmation", "Completed"];
    LowerPending();
    LowerAccepted();
    LowerRejected();
    LowerAwaiting();
    LowerCompleted();
  }

  // The lower-cased texts of the statuses of the drop-down.
  lemma LowerPending() ensures ToLower("Pending") == "pending" { }
  lemma LowerAccepted() ensures ToLower("Accepted") == "accepted" { }
  lemma LowerRejected() ensures ToLower("Rejected") == "rejected" { }
  lemma LowerAwaiting() ensures ToLower("Awaiting Confirmation") == "awaiting confirmation" { }
  lemma LowerCompleted() ensures ToLower("Completed") == "completed" { }

  /** The view's state: the loaded rows, the selected day, the form, the
      row being edited and whether the form is open. */
  class CalendarState {
    var events: seq<FestEvent>
    var selectedDate: Option<Date>
    var formData: EventForm
    var editing: Option<FestEvent>
    var showForm: bool
    const initial: EventForm

    /** `loadDay` is the text of the date the page was loaded on. */
    constructor(loadDay: string)
      ensures events == [] && selectedDate == None && editing == None && !showForm
      ensures initial == InitialForm(loadDay) && formData == initial
    {
      events := [];
      selectedDate := None;
      initial := InitialForm(loadDay);
      formData := InitialForm(loadDay);
      editing := None;
      showForm := false;
    }

    /** Replacing the rows with what the table returned. */
    method Loaded(rows: seq<FestEvent>)
      modifies this
      ensures events == rows
      ensures selectedDate == old(selectedDate) && formData == old(formData)
      ensures editing == old(editing) && showForm == old(showForm)
    {
      events := rows;
    }

    method SelectDate(d: Date)
      requires Shown(d)
      modifies this
      ensures selectedDate == Some(d)
      ensures events == old(events) && formData == old(formData)
      ensures editing == old(editing) && showForm == old(showForm)
    {
      selectedDate := Some(d);
    }

    /** An edit of one of the inputs. */
    method SetForm(f: EventForm)
      modifies this
      ensures formData == f
      ensures events == old(events) && selectedDate == old(selectedDate)
      ensures editing == old(editing) && showForm == old(showForm)
    {
      formData := f;
    }

    /** The days input: `parseInt(value) || 1`. */
    method SetDays(text: string)
      modifies this
      ensures formData == old(formData).(noOfDays := DaysOr1(ParseInt(text)))
      ensures events == old(events) && selectedDate == old(selectedDate)
      ensures editing == old(editing) && showForm == old(showForm)
    {
      formData := formData.(noOfDays := DaysOr1(ParseInt(text)));
    }

    /** The cost input: empty text clears the cost, other text stores its
        `parseFloat`, `parsed`. */
    method SetCost(text: string, parsed: JsNumber)
      modifies this
      ensures formData == old(formData).(cost := if text == "" then None else Some(parsed))
      ensures events == old(events) && selectedDate == old(selectedDate)
      ensures editing == old(editing) && showForm == old(showForm)
    {
      formData := formData.(cost := if text == "" then None else Some(parsed));
    }

    method HandleEdit(e: FestEvent)
      modifies this
      ensures editing == Some(e) && formData == FormOf(e) && showForm
      ensures events == old(events) && selectedDate == old(selectedDate)
    {
      editing := Some(e);
      formData := FormOf(e);
      showForm := true;
    }

    method HandleAddNew(today: Date)
      requires Shown(today) && (selectedDate.Some? ==> Shown(selectedDate.value))
      modifies this
      ensures editing == None && showForm
      ensures formData == NewForm(initial, old(selectedDate), today)
      ensures events == old(events) && selectedDate == old(selectedDate)
    {
      editing := None;
      formData := NewForm(initial, selectedDate, today);
      showForm := true;
    }

    /** `handleSave`: returns the request sent to the table; when the
        table accepts it (`accepted`) the form is closed and reset, and
        otherwise (or when the request is refused) nothing changes. */
    method HandleSave(user: Option<string>, accepted: bool) returns (request: SaveRequest)
      modifies this
      ensures request == SaveRequestFor(old(editing), old(formData), user)
      ensures !request.Refused? && accepted ==> !showForm && editing == None && formData == initial
      ensures request.Refused? || !accepted ==>
                showForm == old(showForm) && editing == old(editing) && formData == old(formData)
      ensures events == old(events) && selectedDate == old(selectedDate)
    {
      request := SaveRequestFor(editing, formData, user);
      if request.Refused? {
        return;
      }
      if accepted {
        showForm := false;
        editing := None;
        formData := initial;
      }
    }
  }
}

/**
 * The mentor directory: each mentor's card (rating and session count with
 * their defaults, the timezone line, the availability chips) and the
 * request dialog, whose state is the selected mentor, whether it is open, and
 * the three text fields of the request.
 */
module MentorList {
  import opened Wrappers
  import opened Seqs
  import opened Sessions
  import Profile

  /** What `mentor.availability` holds: nothing (or another falsy value), a non-array value, or an array of slots. */
  datatype Availability = Missing | NotArray | Slots(slots: seq<Profile.Slot>)

  /** `renderAvailability`'s two shapes: the "No availability set" line, or a box of chips labelled by day. */
  datatype AvailabilityView = NoAvailability | Chips(labels: seq<string>)

  /** `slot.available && <Chip/>`: only a slot whose flag is truthy renders. */
  predicate IsAvailable(slot: Profile.Slot) {
    slot.available == Some(true)
  }

  function DayOf(slot: Profile.Slot): string {
    slot.day
  }

  /**
   * `renderAvailability`: a missing or non-array value gives the message; an
   * array, even an empty one, gives one chip per available slot, labelled with
   * its day.
   */
  function RenderAvailability(a: Availability): (v: AvailabilityView)
    ensures v.NoAvailability? <==> !a.Slots?
    ensures a.Slots? ==> |v.labels| == |IndicesWhere(a.slots, IsAvailable)|
    ensures a.Slots? ==> forall i :: 0 <= i < |v.labels| ==>
              exists j :: 0 <= j < |a.slots| && IsAvailable(a.slots[j]) && a.slots[j].day == v.labels[i]
    ensures a.Slots? ==> forall j :: 0 <= j < |a.slots| && IsAvailable(a.slots[j]) ==> a.slots[j].day in v.labels
  {
    match a
    case Missing => NoAvailability
    case NotArray => NoAvailability
    case Slots(slots) =>
      var kept := Filter(slots, IsAvailable);
      var labels := Map(kept, DayOf);
      FilterLength(slots, IsAvailable);
      assert forall i :: 0 <= i < |labels| ==> labels[i] == kept[i].day && kept[i] in slots;
      assert forall j :: 0 <= j < |slots| && IsAvailable(slots[j]) ==> slots[j] in kept;
      Chips(labels)
  }

  /** The chips keep the input order: those of `a + b` are those of `a` followed by those of `b`. */
  lemma ChipsAppend(a: seq<Profile.Slot>, b: seq<Profile.Slot>)
    ensures RenderAvailability(Slots(a + b)).labels ==
            RenderAvailability(Slots(a)).labels + RenderAvailability(Slots(b)).labels
  {
    FilterConcat(a, b, IsAvailable);
    MapConcat(Filter(a, IsAvailable), Filter(b, IsAvailable), DayOf);
  }

  /** A single slot renders one chip with its day when available, and nothing otherwise. */
  lemma ChipsOfOne(slot: Profile.Slot)
    ensures RenderAvailability(Slots([slot])).labels == if IsAvailable(slot) then [slot.day] else []
  {
    assert [slot][0] == slot;
  }

  /** The fields of a mentor record that the page reads. */
  datatype Mentor = Mentor(
    id: string,
    name: string,
    avatar: Option<string>,
    averageRating: Option<real>,
    totalSessions: Option<int>,
    timezone: Option<string>,
    availability: Availability)

  const DefaultAvatar := "/default-avatar.png"

  datatype MentorCardView = MentorCardView(
    avatar: string,
    title: string,
    rating: real,
    sessionCount: int,
    timezoneLine: Option<string>,
    availability: AvailabilityView)

  /** `x || 0` on a number: an absent value and 0 both read 0, any other value reads itself. */
  function OrZero(x: Option<int>): (r: int)
    ensures x.None? ==> r == 0
    ensures x.Some? ==> r == x.value
  {
    if x.Some? && x.value != 0 then x.value else 0
  }

  function OrZeroReal(x: Option<real>): (r: real)
    ensures x.None? ==> r == 0.0
    ensures x.Some? ==> r == x.value
  {
    if x.Some? && x.value != 0.0 then x.value else 0.0
  }

  /**
   * One mentor card: the avatar falls back to the default picture, rating and
   * session count default to 0, the timezone line appears only for a
   * non-empty timezone, and the availability box is `renderAvailability`'s.
   */
  function RenderMentorCard(m: Mentor): (c: MentorCardView)
    ensures c.avatar == (if Present(m.avatar) then m.avatar.value else DefaultAvatar)
    ensures c.title == m.name
    ensures c.rating == (if m.averageRating.Some? then m.averageRating.value else 0.0)
    ensures c.sessionCount == (if m.totalSessions.Some? then m.totalSessions.value else 0)
    ensures c.timezoneLine.Some? <==> Present(m.timezone)
    ensures c.timezoneLine.Some? ==> c.timezoneLine.value == "Timezone: " + m.timezone.value
    ensures c.availability == RenderAvailability(m.availability)
    ensures c.availability.NoAvailability? <==> !m.availability.Slots?
  {
    MentorCardView(
      if Present(m.avatar) then m.avatar.value else DefaultAvatar,
      m.name,
      OrZeroReal(m.averageRating),
      OrZero(m.totalSessions),
      if Present(m.timezone) then Some("Timezone: " + m.timezone.value) else None,
      RenderAvailability(m.availability))
  }

  /** The request form's three text fields. */
  datatype Details = Details(startTime: string, endTime: string, notes: string)

  datatype DetailField = StartTime | EndTime | Notes

  /** The dialog's state: open or not, the selected mentor (`null` when none), and the request fields. */
  datatype DialogState = DialogState(open: bool, selected: Option<Mentor>, details: Details)

  const EmptyDetails := Details("", "", "")

  /** The page's initial dialog state, which `handleCloseDialog` restores. */
  const Closed := DialogState(false, None, EmptyDetails)

  /** `handleRequestSession`: select the mentor and open the dialog; the request fields are left as they are. */
  function HandleRequestSession(st: DialogState, m: Mentor): (r: DialogState)
    ensures r.open && r.selected == Some(m)
    ensures r.details == st.details
  {
    DialogState(true, Some(m), st.details)
  }

  /** The three `onChange` handlers: the edited field takes the input's value, the other two keep theirs. */
  function HandleDetailChange(st: DialogState, field: DetailField, value: string): (r: DialogState)
    ensures r.open == st.open && r.selected == st.selected
    ensures field == StartTime ==> r.details == st.details.(startTime := value)
    ensures field == EndTime ==> r.details == st.details.(endTime := value)
    ensures field == Notes ==> r.details == st.details.(notes := value)
  {
    match field
    case StartTime => st.(details := st.details.(startTime := value))
    case EndTime => st.(details := st.details.(endTime := value))
    case Notes => st.(details := st.details.(notes := value))
  }

  /** `handleCloseDialog`: closed, no mentor selected, and the three fields empty, whatever the state was. */
  function CloseDialog(st: DialogState): (r: DialogState)
    ensures !r.open && r.selected.None?
    ensures r.details.startTime == "" && r.details.endTime == "" && r.details.notes == ""
  {
    Closed
  }

  /** The body posted to `/api/sessions/request`: `mentorId` followed by the spread request fields. */
  datatype RequestPayload = RequestPayload(mentorId: string, startTime: string, endTime: string, notes: string)

  const RequestSent := "Session request sent successfully!"
  const RequestError := "Error sending session request"

  /** What one press of "Send Request" leaves behind: the body posted (if any), the alert shown, and the new state. */
  datatype SubmitOutcome = SubmitOutcome(sent: Option<RequestPayload>, alert: string, state: DialogState)

  /**
   * `handleSubmitRequest`, with the outcome of the POST as a parameter.  With
   * no mentor selected, reading `_id` throws before anything is posted and the
   * error alert is shown; a successful POST shows the success alert and closes
   * the dialog; a failed one shows the error alert and leaves the state alone.
   */
  function SubmitRequest(st: DialogState, postOk: bool): (o: SubmitOutcome)
    ensures o.sent.Some? <==> st.selected.Some?
    ensures o.sent.Some? ==>
              o.sent.value.mentorId == st.selected.value.id && o.sent.value.startTime == st.details.startTime &&
              o.sent.value.endTime == st.details.endTime && o.sent.value.notes == st.details.notes
    ensures o.alert == RequestSent <==> st.selected.Some? && postOk
    ensures o.alert != RequestSent ==> o.alert == RequestError && o.state == st
    ensures o.alert == RequestSent ==> o.state == CloseDialog(st)
  {
    match st.selected
    case None => SubmitOutcome(None, RequestError, st)
    case Some(m) =>
      var payload := RequestPayload(m.id, st.details.startTime, st.details.endTime, st.details.notes);
      if postOk then SubmitOutcome(Some(payload), RequestSent, CloseDialog(st))
      else SubmitOutcome(Some(payload), RequestError, st)
  }

  /** Closing twice is closing once, and closing forgets everything a previous request opened. */
  lemma CloseForgetsRequest(st: DialogState, m: Mentor)
    ensures CloseDialog(CloseDialog(st)) == CloseDialog(st)
    ensures CloseDialog(HandleRequestSession(st, m)) == CloseDialog(st) == Closed
  {
  }

  /**
   * Opening the dialog for a mentor, filling in the three fields and sending
   * posts exactly that mentor's id and those field values.
   */
  lemma RequestCarriesForm(st: DialogState, m: Mentor, start: string, end: string, notes: string, postOk: bool)
    ensures var filled := HandleDetailChange(HandleDetailChange(HandleDetailChange(
                            HandleRequestSession(st, m), StartTime, start), EndTime, end), Notes, notes);
            SubmitRequest(filled, postOk).sent == Some(RequestPayload(m.id, start, end, notes))
  {
  }

  /** A failed request keeps the dialog as it was, so sending again posts the same body. */
  lemma RetrySendsSameBody(st: DialogState, postOk: bool)
    requires st.selected.Some?
    ensures var first := SubmitRequest(st, false);
            first.state == st && SubmitRequest(first.state, postOk).sent == first.sent
  {
  }

  /** After a successful request the next one cannot be sent until a mentor is selected again. */
  lemma SuccessNeedsNewSelection(st: DialogState, postOk: bool)
    requires st.selected.Some?
    ensures var next := SubmitRequest(st, true).state;
            !next.open && SubmitRequest(next, postOk).sent.None?
  {
  }
}

/**
 * The session record every view derives its display from, and the status,
 * role, feedback and meeting-link tests that the views repeat inline.
 * Timestamps are whole minutes; `now` is always a parameter.
 */
module Sessions {
  import opened Wrappers

  /** A session's `status` string, with the four values the backend uses named. */
  datatype Status = Pending | Approved | Declined | Completed | Other(raw: string)

  /** The role a viewer or a feedback entry (`from`) speaks for. */
  datatype Role = Mentor | Mentee

  /** One entry of `session.feedback`; a rating of 0 stands for a missing or falsy `rating`. */
  datatype Feedback = Feedback(from: Role, rating: int, comment: string)

  datatype Session = Session(
    id: string,
    mentorId: string,
    mentorName: string,
    menteeName: string,
    start: int,
    end: int,
    status: Status,
    meetingUrl: Option<string>,
    notes: Option<string>,
    feedback: seq<Feedback>)

  /** The colour names the views hand to their chips and calendar events. */
  datatype Color = Warning | Success | Error | Info | Primary | Default

  /** The string the backend sends for a status. */
  function StatusName(st: Status): string {
    match st
    case Pending => "pending"
    case Approved => "approved"
    case Declined => "declined"
    case Completed => "completed"
    case Other(raw) => raw
  }

  /** Reads a status string; the four known strings get their own constructor. */
  function ParseStatus(raw: string): (st: Status)
    ensures StatusName(st) == raw
    ensures st.Other? <==> raw !in {"pending", "approved", "declined", "completed"}
  {
    if raw == "pending" then Pending
    else if raw == "approved" then Approved
    else if raw == "declined" then Declined
    else if raw == "completed" then Completed
    else Other(raw)
  }

  /** A status value as `ParseStatus` produces it: `Other` never carries one of the four known strings. */
  predicate WellFormedStatus(st: Status) {
    st.Other? ==> st.raw !in {"pending", "approved", "declined", "completed"}
  }

  /** Every well-formed status survives being sent as a string and read back. */
  lemma ParseStatusName(st: Status)
    requires WellFormedStatus(st)
    ensures ParseStatus(StatusName(st)) == st
  {
  }

  /** JavaScript truthiness of an optional string: present and not empty. */
  predicate Present(s: Option<string>) {
    s.Some? && s.value != ""
  }

  /**
   * An upcoming session: approved and starting strictly after `now`
   * (`moment(s.startTime).isAfter(moment())`, `new Date(s.startTime) > new Date()`).
   */
  function IsUpcoming(s: Session, now: int): (b: bool)
    ensures b ==> s.status == Approved
    ensures s.start <= now ==> !b
    ensures s.status == Approved && now < s.start ==> b
  {
    s.status == Approved && s.start > now
  }

  /** Time only takes sessions out of "upcoming": one upcoming later was upcoming at every earlier moment. */
  lemma UpcomingOnlyExpires(s: Session, now: int, later: int)
    requires now <= later && IsUpcoming(s, later)
    ensures IsUpcoming(s, now)
  {
  }

  /** `s.status === 'completed'`. */
  predicate IsCompleted(s: Session) {
    s.status == Completed
  }

  /** `s.status === 'pending'`. */
  predicate IsPending(s: Session) {
    s.status == Pending
  }

  /** `session.mentor._id === currentUser.userId ? 'mentor' : 'mentee'`. */
  function ViewerRole(s: Session, userId: string): (r: Role)
    ensures r == Mentor <==> s.mentorId == userId
  {
    if s.mentorId == userId then Mentor else Mentee
  }

  /** `session.feedback?.some(f => f.from === role)`: the feedback gate. */
  function HasGivenFeedback(s: Session, role: Role): (b: bool)
    ensures b ==> |s.feedback| > 0
    ensures !b ==> FirstRatingFrom(s.feedback, role) == 0
    ensures s.feedback != [] && s.feedback[0].from == role ==> b
  {
    exists i :: 0 <= i < |s.feedback| && s.feedback[i].from == role
  }

  /** Adding a feedback entry from the other role leaves the gate for `role` where it was. */
  lemma FeedbackFromOtherRole(s: Session, role: Role, f: Feedback)
    requires f.from != role
    ensures HasGivenFeedback(s.(feedback := s.feedback + [f]), role) == HasGivenFeedback(s, role)
  {
    var t := s.(feedback := s.feedback + [f]);
    if HasGivenFeedback(t, role) {
      var i :| 0 <= i < |t.feedback| && t.feedback[i].from == role;
      assert i < |s.feedback| && s.feedback[i].from == role;
    }
    if HasGivenFeedback(s, role) {
      var i :| 0 <= i < |s.feedback| && s.feedback[i].from == role;
      assert t.feedback[i].from == role;
    }
  }

  /** `session.feedback?.find(f => f.from === 'mentee')?.rating`, with a missing entry read as 0 (falsy). */
  function MenteeRating(s: Session): (r: int)
    ensures r != 0 ==> exists i :: 0 <= i < |s.feedback| && s.feedback[i].from == Mentee && s.feedback[i].rating == r
    ensures !HasGivenFeedback(s, Mentee) ==> r == 0
    ensures r == FirstRatingFrom(s.feedback, Mentee)
  {
    FirstRatingFrom(s.feedback, Mentee)
  }

  /** The rating of the first entry from `role`, or 0 when there is none. */
  function FirstRatingFrom(fs: seq<Feedback>, role: Role): (r: int)
    ensures r != 0 ==> exists i :: 0 <= i < |fs| && fs[i].from == role && fs[i].rating == r
    ensures (forall i :: 0 <= i < |fs| ==> fs[i].from != role) ==> r == 0
    ensures forall i :: 0 <= i < |fs| && fs[i].from == role ==>
              r == fs[i].rating || exists j :: 0 <= j < i && fs[j].from == role
    decreases |fs|
  {
    if fs == [] then 0
    else if fs[0].from == role then fs[0].rating
    else FirstRatingFrom(fs[1..], role)
  }

  /** Whole minutes from start to end, as `moment(end).diff(moment(start), 'minutes')` shows them. */
  function DurationMinutes(s: Session): int {
    s.end - s.start
  }

  /** The link test of every "Join Meeting" button outside the calendar: approved, with a truthy `meetingUrl`. */
  function CanJoin(s: Session): (b: bool)
    ensures b ==> s.status == Approved && s.meetingUrl.Some? && |s.meetingUrl.value| > 0
    ensures s.meetingUrl.None? || s.status != Approved ==> !b
    ensures s.status == Approved && s.meetingUrl.Some? && s.meetingUrl.value != "" ==> b
  {
    s.status == Approved && Present(s.meetingUrl)
  }
}

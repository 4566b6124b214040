/**
 * The shared session card of the session list: chip colour and label, the
 * counterpart's name, and which buttons appear for the signed-in user's role.
 */
module SessionCard {
  import opened Sessions
  import opened Strings

  /** The `StatusChip` background: completed and unknown statuses both fall to `info`. */
  function ChipColor(st: Status): (c: Color)
    ensures c in {Warning, Success, Error, Info}
    ensures c == Info <==> st == Completed || st.Other?
    ensures c == Warning <==> st == Pending
    ensures c == Success <==> st == Approved
    ensures c == Error <==> st == Declined
  {
    if st == Pending then Warning
    else if st == Approved then Success
    else if st == Declined then Error
    else Info
  }

  /** `session.status.toUpperCase()`: the status string in capitals. */
  function ChipLabel(st: Status): (r: string)
    ensures |r| == |StatusName(st)|
    ensures forall i :: 0 <= i < |r| ==> r[i] == UpperChar(StatusName(st)[i])
  {
    ToUpper(StatusName(st))
  }

  /** The known statuses appear as their names in capitals. */
  lemma KnownLabels()
    ensures ChipLabel(Pending) == "PENDING" && ChipLabel(Approved) == "APPROVED"
    ensures ChipLabel(Declined) == "DECLINED" && ChipLabel(Completed) == "COMPLETED"
  {
    assert ChipLabel(Pending) == ToUpper("pending");
  }

  /** What the card shows for one session. */
  datatype CardView = CardView(
    title: string,
    chipColor: Color,
    chipLabel: string,
    durationMinutes: int,
    notesShown: bool,
    approveDeclineShown: bool,
    joinShown: bool)

  /** The name after "Session with": the mentee's for a mentor, the mentor's otherwise. */
  function Counterpart(s: Session, role: Role): (name: string)
    ensures role == Mentor ==> name == s.menteeName
    ensures role == Mentee ==> name == s.mentorName
  {
    if role == Mentor then s.menteeName else s.mentorName
  }

  /** The card for `session` seen by a user whose role is `role`. */
  function RenderCard(s: Session, role: Role): (v: CardView)
    ensures v.title == "Session with " + Counterpart(s, role)
    ensures v.approveDeclineShown <==> s.status == Pending && role == Mentor
    ensures v.joinShown <==> s.status == Approved && Present(s.meetingUrl)
    ensures v.approveDeclineShown ==> !v.joinShown
    ensures v.chipColor == ChipColor(s.status) && v.chipLabel == ChipLabel(s.status)
    ensures v.durationMinutes == s.end - s.start
    ensures v.notesShown <==> Present(s.notes)
  {
    CardView(
      title := "Session with " + Counterpart(s, role),
      chipColor := ChipColor(s.status),
      chipLabel := ChipLabel(s.status),
      durationMinutes := DurationMinutes(s),
      notesShown := Present(s.notes),
      approveDeclineShown := s.status == Pending && role == Mentor,
      joinShown := CanJoin(s))
  }
}

/** The session-requests page: one card per fetched session, or a notice when there are none. */
module SessionRequests {
  import opened Sessions
  import MentorDashboard

  /** `getStatusColor`: the four known colours, `default` for anything else. */
  function StatusColor(st: Status): (c: Color)
    ensures c == Default <==> st.Other?
    ensures c == Warning <==> st == Pending
    ensures c == Success <==> st == Approved
    ensures c == Error <==> st == Declined
    ensures c == Info <==> st == Completed
  {
    match st
    case Pending => Warning
    case Approved => Success
    case Declined => Error
    case Completed => Info
    case Other(_) => Default
  }

  /** `getStatusColor` agrees with the mentor dashboard's `getStatusChipColor` on every status. */
  lemma SameAsChipColor(st: Status)
    ensures StatusColor(st) == MentorDashboard.StatusChipColor(st)
  {
  }

  datatype RequestCard = RequestCard(title: string, chipLabel: string, chipColor: Color, durationMinutes: int, joinShown: bool)

  datatype Page = NoRequests | Cards(cards: seq<RequestCard>)

  function RenderRequest(s: Session): (c: RequestCard)
    ensures c.title == "Session with " + s.mentorName
    ensures c.chipLabel == StatusName(s.status)
    ensures c.chipColor == StatusColor(s.status)
    ensures c.durationMinutes == s.end - s.start
    ensures c.joinShown <==> s.status == Approved && Present(s.meetingUrl)
  {
    RequestCard("Session with " + s.mentorName, StatusName(s.status), StatusColor(s.status), DurationMinutes(s), CanJoin(s))
  }

  /** An empty list shows the notice; otherwise one card per session, in order. */
  function RenderPage(ss: seq<Session>): (p: Page)
    ensures p == NoRequests <==> ss == []
    ensures p.Cards? ==> |p.cards| == |ss| && forall i :: 0 <= i < |ss| ==> p.cards[i] == RenderRequest(ss[i])
  {
    if ss == [] then NoRequests
    else Cards(seq(|ss|, i requires 0 <= i < |ss| => RenderRequest(ss[i])))
  }
}

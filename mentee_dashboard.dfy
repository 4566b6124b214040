/**
 * The mentee dashboard: its metrics (the rating comes from the signed-in
 * user, not from the sessions) and the buttons of a session card.
 */
module MenteeDashboard {
  import opened Wrappers
  import opened Sessions
  import MentorDashboard

  datatype Metrics = Metrics(totalSessions: nat, upcomingSessions: nat, averageRating: real, totalHours: int)

  /**
   * `calculateMetrics` of the mentee view: total, upcoming and hours as on the
   * mentor dashboard; the rating is `currentUser.averageRating || 0`.
   */
  function CalculateMetrics(ss: seq<Session>, now: int, userAverageRating: Option<real>): (m: Metrics)
    ensures m.totalSessions == |ss|
    ensures m.upcomingSessions == |set i | 0 <= i < |ss| && IsUpcoming(ss[i], now)|
    ensures 120 * m.totalHours - 60 <= 2 * MentorDashboard.CompletedMinutes(ss) < 120 * m.totalHours + 60
    ensures userAverageRating.Some? ==> m.averageRating == userAverageRating.value
    ensures userAverageRating.None? ==> m.averageRating == 0.0
  {
    Metrics(|ss|, |MentorDashboard.UpcomingSessions(ss, now)|, userAverageRating.GetOr(0.0),
            MentorDashboard.RoundHours(MentorDashboard.CompletedMinutes(ss)))
  }

  /** The mentee view's metrics other than the rating agree with the mentor view's, whatever the user's rating. */
  lemma AgreesWithMentorMetrics(ss: seq<Session>, now: int, userAverageRating: Option<real>)
    ensures var m := CalculateMetrics(ss, now, userAverageRating);
            var n := MentorDashboard.CalculateMetrics(ss, now);
            m.totalSessions == n.totalSessions && m.upcomingSessions == n.upcomingSessions && m.totalHours == n.totalHours
  {
  }

  /** What a mentee session card shows besides its text. */
  datatype SessionCardView = SessionCardView(title: string, chip: MentorDashboard.ChipConfig, joinShown: bool, feedbackShown: bool)

  /** `renderSessionCard` of the mentee view: Join for approved sessions with a link, Feedback for completed ones the viewer's role has not rated. */
  function RenderSessionCard(s: Session, userId: string): (v: SessionCardView)
    ensures v.title == "Session with " + s.mentorName
    ensures v.chip == MentorDashboard.StatusChipConfig(s.status)
    ensures v.joinShown <==> s.status == Approved && Present(s.meetingUrl)
    ensures v.feedbackShown <==>
              (s.status == Completed &&
               forall i :: 0 <= i < |s.feedback| ==> s.feedback[i].from != (if s.mentorId == userId then Mentor else Mentee))
    ensures v.joinShown ==> !v.feedbackShown
  {
    var hasGivenFeedback := HasGivenFeedback(s, ViewerRole(s, userId));
    SessionCardView("Session with " + s.mentorName, MentorDashboard.StatusChipConfig(s.status),
                    CanJoin(s), !hasGivenFeedback && s.status == Completed)
  }
}

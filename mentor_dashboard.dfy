/**
 * The mentor dashboard: the four metrics it derives from the fetched
 * sessions, the enable flags of a session card's four buttons, the status
 * chip, and the feedback gate of the "Recent Sessions" list.
 */
module MentorDashboard {
  import opened Wrappers
  import opened Seqs
  import opened Sessions

  datatype Metrics = Metrics(totalSessions: nat, upcomingSessions: nat, averageRating: real, totalHours: int)

  /** `Math.round(minutes / 60)`: the whole number of hours nearest to `minutes`, halves rounded up. */
  function RoundHours(minutes: int): (h: int)
    ensures 120 * h - 60 <= 2 * minutes < 120 * h + 60
  {
    (2 * minutes + 60) / 120
  }

  function IsRating(r: int): bool {
    r != 0
  }

  /** `sessions.filter(s => s.status === 'completed')`. */
  function CompletedSessions(ss: seq<Session>): seq<Session> {
    Filter(ss, IsCompleted)
  }

  /** The minutes summed by the `reduce` over the completed sessions. */
  function CompletedMinutes(ss: seq<Session>): int {
    Total(Map(CompletedSessions(ss), DurationMinutes))
  }

  /** The mentee ratings of the completed sessions, falsy ones (missing or 0) dropped by `filter(Boolean)`. */
  function Ratings(ss: seq<Session>): seq<int> {
    Filter(Map(CompletedSessions(ss), MenteeRating), IsRating)
  }

  /** `sessions.filter(s => s.status === 'approved' && moment(s.startTime).isAfter(moment()))`: one entry per upcoming session. */
  function UpcomingSessions(ss: seq<Session>, now: int): (r: seq<Session>)
    ensures |r| == |set i | 0 <= i < |ss| && IsUpcoming(ss[i], now)|
  {
    FilterLength(ss, s => IsUpcoming(s, now));
    assert IndicesWhere(ss, s => IsUpcoming(s, now)) == set i | 0 <= i < |ss| && IsUpcoming(ss[i], now);
    Filter(ss, s => IsUpcoming(s, now))
  }

  /** The mean of `rs`, or 0 when `rs` is empty. */
  function Mean(rs: seq<int>): (r: real)
    ensures rs == [] ==> r == 0.0
    ensures rs != [] ==> r == Total(rs) as real / |rs| as real
    ensures rs != [] ==> r * |rs| as real == Total(rs) as real
  {
    if |rs| > 0 then Total(rs) as real / |rs| as real else 0.0
  }

  /** `calculateMetrics`: the metrics the dashboard cards show for the fetched sessions at time `now`. */
  function CalculateMetrics(ss: seq<Session>, now: int): (m: Metrics)
    ensures m.totalSessions == |ss|
    ensures m.upcomingSessions == |set i | 0 <= i < |ss| && IsUpcoming(ss[i], now)|
    ensures 120 * m.totalHours - 60 <= 2 * CompletedMinutes(ss) < 120 * m.totalHours + 60
    ensures Ratings(ss) == [] ==> m.averageRating == 0.0
    ensures Ratings(ss) != [] ==> m.averageRating == Total(Ratings(ss)) as real / |Ratings(ss)| as real
  {
    Metrics(|ss|, |UpcomingSessions(ss, now)|, Mean(Ratings(ss)), RoundHours(CompletedMinutes(ss)))
  }

  /** Each completed session adds its duration to the minutes; any other session adds nothing. */
  lemma CompletedMinutesAppend(ss: seq<Session>, s: Session)
    ensures CompletedMinutes(ss + [s]) == CompletedMinutes(ss) + (if s.status == Completed then DurationMinutes(s) else 0)
  {
    FilterConcat(ss, [s], IsCompleted);
    MapConcat(CompletedSessions(ss), CompletedSessions([s]), DurationMinutes);
    TotalConcat(Map(CompletedSessions(ss), DurationMinutes), Map(CompletedSessions([s]), DurationMinutes));
    assert CompletedSessions([s]) == if s.status == Completed then [s] else [];
  }

  /** A session contributes a rating exactly when it is completed and its first mentee entry has a non-zero rating. */
  lemma RatingsAppend(ss: seq<Session>, s: Session)
    ensures Ratings(ss + [s]) == Ratings(ss) + (if s.status == Completed && MenteeRating(s) != 0 then [MenteeRating(s)] else [])
  {
    FilterConcat(ss, [s], IsCompleted);
    MapConcat(CompletedSessions(ss), CompletedSessions([s]), MenteeRating);
    FilterConcat(Map(CompletedSessions(ss), MenteeRating), Map(CompletedSessions([s]), MenteeRating), IsRating);
    assert CompletedSessions([s]) == if s.status == Completed then [s] else [];
  }

  /** A completed session whose first mentee entry carries a non-zero rating. */
  predicate IsRated(s: Session) {
    s.status == Completed && MenteeRating(s) != 0
  }

  /** The number of ratings averaged is the number of completed sessions carrying a non-zero mentee rating, and none of them is 0. */
  lemma {:induction false} RatingsCount(ss: seq<Session>)
    ensures |Ratings(ss)| == |set i | 0 <= i < |ss| && IsRated(ss[i])|
    ensures forall i :: 0 <= i < |Ratings(ss)| ==> Ratings(ss)[i] != 0
  {
    RatedSessions(ss);
    FilterLength(ss, IsRated);
    assert IndicesWhere(ss, IsRated) == set i | 0 <= i < |ss| && IsRated(ss[i]);
    var rs := Ratings(ss);
    assert forall i :: 0 <= i < |rs| ==> IsRating(rs[i]);
  }

  lemma {:induction false} RatedSessions(ss: seq<Session>)
    ensures |Ratings(ss)| == |Filter(ss, IsRated)|
    decreases |ss|
  {
    if ss != [] {
      var init, last := ss[..|ss| - 1], ss[|ss| - 1];
      assert ss == init + [last];
      RatedSessions(init);
      RatingsAppend(init, last);
      FilterConcat(init, [last], IsRated);
      assert Filter([last], IsRated) == if IsRated(last) then [last] else [];
    }
  }

  /** No metric depends on the order of the fetched sessions. */
  lemma MetricsIgnoreOrder(a: seq<Session>, b: seq<Session>, now: int)
    requires multiset(a) == multiset(b)
    ensures CalculateMetrics(a, now) == CalculateMetrics(b, now)
  {
    assert |a| == |multiset(a)| == |b|;
    FilterPermutation(a, b, s => IsUpcoming(s, now));
    assert |UpcomingSessions(a, now)| == |multiset(UpcomingSessions(a, now))| == |UpcomingSessions(b, now)|;
    FilterPermutation(a, b, IsCompleted);
    MapPermutation(CompletedSessions(a), CompletedSessions(b), DurationMinutes);
    TotalPermutation(Map(CompletedSessions(a), DurationMinutes), Map(CompletedSessions(b), DurationMinutes));
    MapPermutation(CompletedSessions(a), CompletedSessions(b), MenteeRating);
    FilterPermutation(Map(CompletedSessions(a), MenteeRating), Map(CompletedSessions(b), MenteeRating), IsRating);
    TotalPermutation(Ratings(a), Ratings(b));
    assert |Ratings(a)| == |multiset(Ratings(a))| == |Ratings(b)|;
  }

  /** The enable state of the four buttons `renderActionButtons` draws. */
  datatype ActionButtons = ActionButtons(approveDisabled: bool, declineDisabled: bool, joinDisabled: bool, feedbackDisabled: bool)

  /** `renderActionButtons(session, hasGivenFeedback)`: no role check on Approve/Decline, and feedback gated only by the flag passed in. */
  function RenderActionButtons(s: Session, hasGivenFeedback: bool): (b: ActionButtons)
    ensures !b.approveDisabled <==> s.status == Pending
    ensures b.declineDisabled == b.approveDisabled
    ensures !b.joinDisabled <==> s.status == Approved && Present(s.meetingUrl)
    ensures s.status == Completed ==> b.joinDisabled
    ensures b.feedbackDisabled <==> hasGivenFeedback
  {
    ActionButtons(
      approveDisabled := s.status != Pending,
      declineDisabled := s.status != Pending,
      joinDisabled := s.status != Approved || !Present(s.meetingUrl),
      feedbackDisabled := hasGivenFeedback)
  }

  /** A chip's colour and label. */
  datatype ChipConfig = ChipConfig(color: Color, caption: string)

  /** The `StatusChip` lookup: a known status shows its name capitalised; anything else falls back to the pending entry. */
  function StatusChipConfig(st: Status): (c: ChipConfig)
    ensures st.Other? ==> c == ChipConfig(Warning, "Pending")
    ensures !st.Other? ==>
              |c.caption| == |StatusName(st)| > 0 && c.caption[1..] == StatusName(st)[1..] &&
              c.caption[0] as int == StatusName(st)[0] as int - 32
    ensures c.color == Warning <==> st == Pending || st.Other?
    ensures c.color == Success <==> st == Approved
    ensures c.color == Error <==> st == Declined
    ensures c.color == Info <==> st == Completed
  {
    match st
    case Pending => ChipConfig(Warning, "Pending")
    case Approved => ChipConfig(Success, "Approved")
    case Declined => ChipConfig(Error, "Declined")
    case Completed => ChipConfig(Info, "Completed")
    case Other(_) => ChipConfig(Warning, "Pending")
  }

  /** `getStatusChipColor`: the same four colours as the chip, but `default` for an unknown status. */
  function StatusChipColor(st: Status): (c: Color)
    ensures !st.Other? ==> c == StatusChipConfig(st).color
    ensures st.Other? <==> c == Default
  {
    match st
    case Pending => Warning
    case Approved => Success
    case Declined => Error
    case Completed => Info
    case Other(_) => Default
  }

  /** What `renderSessionCard` shows for one session. */
  datatype SessionCardView = SessionCardView(title: string, chip: ChipConfig, buttons: ActionButtons)

  /** `renderSessionCard`: the viewer's role comes from the mentor id, and feedback is disabled once that role has an entry. */
  function RenderSessionCard(s: Session, userId: string): (v: SessionCardView)
    ensures v.title == "Session with " + s.menteeName
    ensures v.chip == StatusChipConfig(s.status)
    ensures v.buttons.feedbackDisabled <==>
              exists i :: 0 <= i < |s.feedback| && s.feedback[i].from == (if s.mentorId == userId then Mentor else Mentee)
    ensures !v.buttons.approveDisabled <==> s.status == Pending
    ensures !v.buttons.declineDisabled <==> s.status == Pending
    ensures !v.buttons.joinDisabled <==> CanJoin(s)
  {
    SessionCardView("Session with " + s.menteeName, StatusChipConfig(s.status),
                    RenderActionButtons(s, HasGivenFeedback(s, ViewerRole(s, userId))))
  }

  /** What a "Recent Sessions" entry shows besides its text. */
  datatype RecentSessionView = RecentSessionView(chip: ChipConfig, joinShown: bool, rating: Option<int>, feedbackDisabled: bool)

  /** A recent-session entry: the rating appears once any feedback exists, and Feedback is disabled by a mentor entry whoever is viewing. */
  function RenderRecentSession(s: Session): (v: RecentSessionView)
    ensures v.chip == StatusChipConfig(s.status)
    ensures v.joinShown <==> CanJoin(s)
    ensures v.rating.Some? <==> |s.feedback| > 0
    ensures v.rating.Some? ==> v.rating.value == FirstRatingFrom(s.feedback, Mentee)
    ensures v.rating.Some? && !HasGivenFeedback(s, Mentee) ==> v.rating.value == 0
    ensures v.feedbackDisabled <==> exists i :: 0 <= i < |s.feedback| && s.feedback[i].from == Mentor
  {
    RecentSessionView(StatusChipConfig(s.status), CanJoin(s),
                      if |s.feedback| > 0 then Some(MenteeRating(s)) else None,
                      HasGivenFeedback(s, Mentor))
  }
}

/**
 * The calendar: sessions become events, the events are coloured by status,
 * and the event dialog offers the meeting link.
 */
module Calendar {
  import opened Wrappers
  import opened Seqs
  import opened Sessions

  datatype Event = Event(
    id: string,
    title: string,
    start: int,
    end: int,
    meetingUrl: Option<string>,
    status: Status,
    notes: Option<string>)

  /** Only approved and completed sessions reach the calendar. */
  predicate OnCalendar(s: Session) {
    s.status == Approved || s.status == Completed
  }

  /** One session as an event. */
  function ToEvent(s: Session, role: Role): (e: Event)
    ensures e.title == "Session with " + (if role == Mentor then s.menteeName else s.mentorName)
    ensures e.id == s.id && e.start == s.start && e.end == s.end
    ensures e.meetingUrl == s.meetingUrl && e.status == s.status && e.notes == s.notes
  {
    Event(s.id, "Session with " + (if role == Mentor then s.menteeName else s.mentorName),
          s.start, s.end, s.meetingUrl, s.status, s.notes)
  }

  /** `fetchSessions`' projection: the approved and completed sessions, in order, each as one event. */
  function FormatEvents(ss: seq<Session>, role: Role): (es: seq<Event>)
    ensures |es| == |Filter(ss, OnCalendar)|
    ensures forall k :: 0 <= k < |es| ==> es[k] == ToEvent(Filter(ss, OnCalendar)[k], role)
    ensures forall k :: 0 <= k < |es| ==> es[k].status in {Approved, Completed}
    ensures |es| == |set i | 0 <= i < |ss| && OnCalendar(ss[i])|
  {
    var kept := Filter(ss, OnCalendar);
    FilterLength(ss, OnCalendar);
    assert IndicesWhere(ss, OnCalendar) == set i | 0 <= i < |ss| && OnCalendar(ss[i]);
    Map(kept, s => ToEvent(s, role))
  }

  /** Events correspond one to one with the kept sessions: the event list depends only on them, in the same order. */
  lemma {:induction false} EventsAppend(ss: seq<Session>, s: Session, role: Role)
    ensures FormatEvents(ss + [s], role) == FormatEvents(ss, role) + (if OnCalendar(s) then [ToEvent(s, role)] else [])
  {
    FilterConcat(ss, [s], OnCalendar);
    assert Filter([s], OnCalendar) == if OnCalendar(s) then [s] else [];
    MapConcat(Filter(ss, OnCalendar), Filter([s], OnCalendar), s => ToEvent(s, role));
  }

  /** The style `eventStyleGetter` returns. */
  datatype EventStyle = EventStyle(backgroundColor: Color, borderRadius: string, opacity: real, color: string, border: string, display: string)

  /** Approved events are green, completed blue, anything else the primary colour; the rest of the style never changes. */
  function StyleOf(e: Event): (st: EventStyle)
    ensures st.backgroundColor == Success <==> e.status == Approved
    ensures st.backgroundColor == Info <==> e.status == Completed
    ensures st.backgroundColor == Primary <==> !(e.status in {Approved, Completed})
    ensures st.(backgroundColor := Primary) == EventStyle(Primary, "4px", 0.8, "white", "0px", "block")
  {
    var base := EventStyle(Primary, "4px", 0.8, "white", "0px", "block");
    match e.status
    case Approved => base.(backgroundColor := Success)
    case Completed => base.(backgroundColor := Info)
    case _ => base
  }

  /** The dialog's Join Meeting button: shown whenever the event has a link, whatever its status. */
  function DialogJoinShown(e: Event): (shown: bool)
    ensures shown <==> e.meetingUrl.Some? && e.meetingUrl.value != ""
  {
    Present(e.meetingUrl)
  }

  /** Every event comes from an approved or completed session, so the calendar never shows the primary colour. */
  lemma CalendarColours(ss: seq<Session>, role: Role, k: int)
    requires 0 <= k < |FormatEvents(ss, role)|
    ensures StyleOf(FormatEvents(ss, role)[k]).backgroundColor in {Success, Info}
  {
  }
}

/**
 * The REST controller under `/api/visitors`: each endpoint is one call of the visitor-meeting service.
 * The request is taken as already bound by the framework (path id, query parameter, JSON body); an
 * exception from the service becomes the framework's default 500 answer.
 */
module VisitorMeetingController {
  import opened Wrappers
  import opened VisitorMeetingService

  /** The ten endpoints, with their bound arguments. */
  datatype Endpoint =
    | GetAllVisitors                               // GET    /api/visitors
    | GetTodayVisitors                             // GET    /api/visitors/today
    | GetUpcomingVisitors                          // GET    /api/visitors/upcoming
    | ScheduleVisitor(visitor: VisitorMeeting)     // POST   /api/visitors
    | UpdateVisitor(id: int, updated: VisitorMeeting) // PUT /api/visitors/{id}
    | DeleteVisitor(id: int)                       // DELETE /api/visitors/{id}
    | UpdateVisitorStatus(id: int, status: string) // PUT    /api/visitors/{id}/status?status=
    | GetAllCompletedVisitors                      // GET    /api/visitors/completed
    | MarkVisitorCompleted(id: int)                // PUT    /api/visitors/{id}/complete
    | GetCompletedVisitors                         // GET    /api/visitors/visitors/completed

  /** The answer's body: a list, one meeting, nothing (200 with an empty body), or a server error. */
  datatype Body =
    | Meetings(meetingRows: set<VisitorMeeting>)
    | Archived(archiveRows: set<CompletedVisitor>)
    | One(meeting: VisitorMeeting)
    | NoContent
    | ServerError(message: string)

  /** An uncaught exception is answered with 500, everything else with 200. */
  function HttpStatus(b: Body): (code: int)
    ensures code == 500 <==> b.ServerError?
    ensures code == 200 <==> !b.ServerError?
  {
    if b.ServerError? then 500 else 200
  }

  datatype Handled = Handled(tables: Tables, body: Body)

  /** The read endpoints. */
  predicate IsQuery(e: Endpoint) {
    e.GetAllVisitors? || e.GetTodayVisitors? || e.GetUpcomingVisitors? || e.GetAllCompletedVisitors? ||
    e.GetCompletedVisitors?
  }

  /** One request against the tables; `today` is the server's `LocalDate.now()`. */
  function Handle(t: Tables, e: Endpoint, today: Date): (h: Handled)
    ensures IsQuery(e) ==> h.tables == t
    ensures TablesValid(t) ==> TablesValid(h.tables)
  {
    match e
    case GetAllVisitors => Handled(t, Meetings(AllMeetings(t)))
    case GetTodayVisitors => Handled(t, Meetings(OnDate(t, today)))
    case GetUpcomingVisitors => Handled(t, Meetings(After(t, today)))
    case ScheduleVisitor(v) =>
      var s := Schedule(t, v);
      Handled(s.tables, One(s.meeting))
    case UpdateVisitor(id, v) =>
      (match Update(t, id, v)
       case Success(s) => Handled(s.tables, One(s.meeting))
       case Failure(msg) => Handled(t, ServerError(msg)))
    case DeleteVisitor(id) => Handled(Delete(t, id), NoContent)
    case UpdateVisitorStatus(id, status) => StatusAnswer(t, id, status)
    case GetAllCompletedVisitors => Handled(t, Archived(AllCompleted(t)))
    case MarkVisitorCompleted(id) => StatusAnswer(t, id, "Completed")
    case GetCompletedVisitors => Handled(t, Archived(AllCompleted(t)))
  }

  /** The status endpoints: 200 with no body after the update, or the service's error. */
  function StatusAnswer(t: Tables, id: int, status: string): (h: Handled)
    ensures id !in t.meetings ==> h == Handled(t, ServerError(NotFoundMessage))
    ensures id in t.meetings ==> h.body == NoContent && StatusChange(t, id, status) == Success(h.tables)
    ensures TablesValid(t) ==> TablesValid(h.tables)
  {
    match StatusChange(t, id, status)
    case Success(t') => Handled(t', NoContent)
    case Failure(msg) => Handled(t, ServerError(msg))
  }

  /** `PUT /{id}/complete` has exactly the effect and answer of `PUT /{id}/status?status=COMPLETED`. */
  lemma CompleteIsStatusCompleted(t: Tables, id: int, today: Date)
    ensures Handle(t, MarkVisitorCompleted(id), today) == Handle(t, UpdateVisitorStatus(id, "COMPLETED"), today)
  {
    CompletedSpellingsAgree();
    StatusEffectIgnoresCase(t, id, "Completed", "COMPLETED");
  }

  /** Marking a stored meeting complete moves it: gone from the scheduled table, one archive row more. */
  lemma CompleteMovesMeeting(t: Tables, id: int, today: Date)
    requires TablesValid(t) && id in t.meetings
    ensures var h := Handle(t, MarkVisitorCompleted(id), today);
            h.body == NoContent && h.tables.meetings == t.meetings - {id} &&
            h.tables.completed == t.completed[t.nextCompletedId := Archive(t.meetings[id], t.nextCompletedId)] &&
            |h.tables.completed| == |t.completed| + 1
  {
    CompletedSpellingsAgree();
    CompletionMovesMeeting(t, id, "Completed");
  }

  /** `/completed` and `/visitors/completed` answer the same list: every archive row. */
  lemma CompletedEndpointsAgree(t: Tables, today: Date)
    ensures Handle(t, GetAllCompletedVisitors, today) == Handle(t, GetCompletedVisitors, today)
    ensures var b := Handle(t, GetCompletedVisitors, today).body;
            b.Archived? && forall k :: k in t.completed ==> t.completed[k] in b.archiveRows
  {
  }

  /** `/today` lists exactly the meetings dated today, `/upcoming` exactly those dated after today,
      and the two lists share no row. */
  lemma TodayAndUpcoming(t: Tables, today: Date)
    ensures var a := Handle(t, GetTodayVisitors, today).body;
            var b := Handle(t, GetUpcomingVisitors, today).body;
            a.Meetings? && b.Meetings? &&
            (forall k :: k in t.meetings ==> (t.meetings[k] in a.meetingRows <==> t.meetings[k].scheduledDate == Some(today))) &&
            (forall k :: k in t.meetings ==>
               (t.meetings[k] in b.meetingRows <==>
                t.meetings[k].scheduledDate.Some? && Before(today, t.meetings[k].scheduledDate.value))) &&
            a.meetingRows * b.meetingRows == {}
  {
    var a := OnDate(t, today);
    var b := After(t, today);
    forall m | m in a ensures m !in b {
      DateQueriesDisjoint(t, today, m);
    }
  }

  /** A POST always answers with a stored meeting whose status is "SCHEDULED". */
  lemma PostIsScheduled(t: Tables, v: VisitorMeeting, today: Date)
    ensures var h := Handle(t, ScheduleVisitor(v), today);
            h.body.One? && h.body.meeting.status == Some("SCHEDULED") && HttpStatus(h.body) == 200 &&
            h.body.meeting.id.Some? && h.tables.meetings[h.body.meeting.id.value] == h.body.meeting
  {
  }

  /** An unknown id on update, status or complete is a 500 that changes nothing; delete is always 200. */
  lemma UnknownIdAnswers(t: Tables, id: int, v: VisitorMeeting, status: string, today: Date)
    requires id !in t.meetings
    ensures var h := Handle(t, UpdateVisitor(id, v), today); h.tables == t && HttpStatus(h.body) == 500
    ensures var h := Handle(t, UpdateVisitorStatus(id, status), today); h.tables == t && HttpStatus(h.body) == 500
    ensures var h := Handle(t, MarkVisitorCompleted(id), today); h.tables == t && HttpStatus(h.body) == 500
    ensures var h := Handle(t, DeleteVisitor(id), today); h.tables == t && HttpStatus(h.body) == 200
  {
    assert t.meetings - {id} == t.meetings;
  }

  /** The archive grows only through the two status endpoints. */
  lemma ArchiveGrowsOnlyByStatus(t: Tables, e: Endpoint, today: Date)
    requires !e.UpdateVisitorStatus? && !e.MarkVisitorCompleted?
    ensures Handle(t, e, today).tables.completed == t.completed
  {
  }
}

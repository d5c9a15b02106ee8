/**
 * The backend's visitor-meeting service over its two tables: the scheduled meetings and the
 * completed-visitor archive. Completing a meeting moves it from the first table to the second.
 * Each table is a map from primary key to row; the key generator of each table is a counter.
 */
module VisitorMeetingService {
  import opened Wrappers
  import opened Text

  /** A `LocalDate`. */
  datatype Date = Date(year: int, month: int, day: int)

  /** `a.isBefore(b)`: the chronological order, year first. */
  predicate Before(a: Date, b: Date) {
    a.year < b.year || (a.year == b.year && (a.month < b.month || (a.month == b.month && a.day < b.day)))
  }

  lemma BeforeIrreflexive(d: Date)
    ensures !Before(d, d)
  {
  }

  /** A row of the scheduled-meetings table; `id` is null until the row is first saved. */
  datatype VisitorMeeting = VisitorMeeting(
    id: Option<int>,
    visitorName: string,
    visitorContact: string,
    inmateName: string,
    purpose: string,
    scheduledDate: Option<Date>,
    scheduledTime: Option<string>,
    status: Option<string>,
    remarks: Option<string>,
    createdAt: Option<string>)

  /** A row of the completed-visitor archive. */
  datatype CompletedVisitor = CompletedVisitor(
    id: int,
    visitorName: string,
    visitorContact: string,
    inmateName: string,
    purpose: string,
    scheduledDate: Option<Date>,
    scheduledTime: Option<string>,
    status: string,
    remarks: Option<string>,
    createdAt: Option<string>)

  /** Both tables and the next key each one will generate. */
  datatype Tables = Tables(
    meetings: map<int, VisitorMeeting>,
    completed: map<int, CompletedVisitor>,
    nextMeetingId: int,
    nextCompletedId: int)

  /** Every row carries its own key, and every key is below the table's next generated key. */
  predicate TablesValid(t: Tables) {
    (forall k :: k in t.meetings ==> t.meetings[k].id == Some(k) && k < t.nextMeetingId) &&
    (forall k :: k in t.completed ==> t.completed[k].id == k && k < t.nextCompletedId)
  }

  /** The unknown-id exception, or a value. */
  datatype Result<+T> = Success(value: T) | Failure(message: string)

  const NotFoundMessage := "Visitor not found"

  // ---------------------------------------------------------------- saving a meeting

  /** The key `save` writes a meeting under: its own id when that row exists, else a new key. */
  function SaveKey(t: Tables, v: VisitorMeeting): int {
    if v.id.Some? && v.id.value in t.meetings then v.id.value else t.nextMeetingId
  }

  /** The tables after saving a meeting, and the saved row. */
  datatype Saved = Saved(tables: Tables, meeting: VisitorMeeting)

  /** `repository.save(v)`: an existing row is overwritten, anything else becomes a row with a new key. */
  function Save(t: Tables, v: VisitorMeeting): (s: Saved)
    ensures s.meeting == v.(id := Some(SaveKey(t, v)))
    ensures s.tables.meetings == t.meetings[SaveKey(t, v) := s.meeting]
    ensures s.tables.completed == t.completed && s.tables.nextCompletedId == t.nextCompletedId
    ensures s.tables.nextMeetingId == if SaveKey(t, v) == t.nextMeetingId then t.nextMeetingId + 1 else t.nextMeetingId
    ensures TablesValid(t) ==> TablesValid(s.tables)
  {
    var k := SaveKey(t, v);
    var m := v.(id := Some(k));
    if k == t.nextMeetingId then Saved(t.(meetings := t.meetings[k := m], nextMeetingId := k + 1), m)
    else Saved(t.(meetings := t.meetings[k := m]), m)
  }

  /** `scheduleVisitor`: the meeting is saved with status "SCHEDULED", whatever status it came with. */
  function Schedule(t: Tables, v: VisitorMeeting): (s: Saved)
    ensures s.meeting.status == Some("SCHEDULED")
    ensures s.meeting == v.(status := Some("SCHEDULED"), id := s.meeting.id)
    ensures s.meeting.id.Some? && s.meeting.id.value in s.tables.meetings
    ensures s.tables.meetings[s.meeting.id.value] == s.meeting
    ensures s.meeting.id == Some(SaveKey(t, v)) && s.tables.meetings == t.meetings[SaveKey(t, v) := s.meeting]
    ensures s.tables.nextMeetingId == if SaveKey(t, v) == t.nextMeetingId then t.nextMeetingId + 1 else t.nextMeetingId
    ensures s.tables.completed == t.completed && s.tables.nextCompletedId == t.nextCompletedId
    ensures TablesValid(t) ==> TablesValid(s.tables)
  {
    Save(t, v.(status := Some("SCHEDULED")))
  }

  /** The seven fields `updateVisitor` copies from the request onto the stored meeting. */
  function Reschedule(existing: VisitorMeeting, updated: VisitorMeeting): (m: VisitorMeeting)
    ensures m.visitorName == updated.visitorName && m.visitorContact == updated.visitorContact
    ensures m.inmateName == updated.inmateName && m.purpose == updated.purpose
    ensures m.scheduledDate == updated.scheduledDate && m.scheduledTime == updated.scheduledTime
    ensures m.remarks == updated.remarks
    ensures m.id == existing.id && m.status == existing.status && m.createdAt == existing.createdAt
  {
    existing.(visitorName := updated.visitorName, visitorContact := updated.visitorContact,
              inmateName := updated.inmateName, purpose := updated.purpose,
              scheduledDate := updated.scheduledDate, scheduledTime := updated.scheduledTime,
              remarks := updated.remarks)
  }

  /** `updateVisitor(id, updated)`: an unknown id throws and changes nothing; otherwise only the row
      `id` changes, to the stored row with the seven fields of `updated`. */
  function Update(t: Tables, id: int, updated: VisitorMeeting): (r: Result<Saved>)
    ensures r.Failure? <==> id !in t.meetings
    ensures r.Failure? ==> r.message == NotFoundMessage
    ensures r.Success? ==> r.value.meeting == Reschedule(t.meetings[id], updated)
    ensures r.Success? ==> r.value.tables == t.(meetings := t.meetings[id := r.value.meeting])
    ensures r.Success? && TablesValid(t) ==> TablesValid(r.value.tables)
  {
    if id !in t.meetings then Failure(NotFoundMessage)
    else
      var m := Reschedule(t.meetings[id], updated);
      Success(Saved(t.(meetings := t.meetings[id := m]), m))
  }

  /** `deleteVisitor(id)`: only that key goes; a key that is not there is ignored. */
  function Delete(t: Tables, id: int): (r: Tables)
    ensures r.meetings == t.meetings - {id}
    ensures r.completed == t.completed
    ensures forall k :: k in t.meetings && k != id ==> k in r.meetings && r.meetings[k] == t.meetings[k]
    ensures TablesValid(t) ==> TablesValid(r)
  {
    t.(meetings := t.meetings - {id})
  }

  // ---------------------------------------------------------------- status updates

  /** The archive row built from a completed meeting: its seven fields and createdAt, status "Completed". */
  function Archive(m: VisitorMeeting, key: int): (c: CompletedVisitor)
    ensures c.id == key && c.status == "Completed"
    ensures c.visitorName == m.visitorName && c.visitorContact == m.visitorContact
    ensures c.inmateName == m.inmateName && c.purpose == m.purpose
    ensures c.scheduledDate == m.scheduledDate && c.scheduledTime == m.scheduledTime
    ensures c.remarks == m.remarks && c.createdAt == m.createdAt
  {
    CompletedVisitor(key, m.visitorName, m.visitorContact, m.inmateName, m.purpose,
                     m.scheduledDate, m.scheduledTime, "Completed", m.remarks, m.createdAt)
  }

  /** `"COMPLETED".equalsIgnoreCase(status)`: the status that moves a meeting to the archive. */
  predicate IsCompletion(status: string) {
    EqualsIgnoreCase("COMPLETED", status)
  }

  /** `updateStatus(id, status)`: the upper-cased status is stored on the row; a completion then
      archives the row and deletes it from the scheduled table. */
  function StatusChange(t: Tables, id: int, status: string): (r: Result<Tables>)
    ensures r.Failure? <==> id !in t.meetings
    ensures r.Failure? ==> r.message == NotFoundMessage
    ensures r.Success? && TablesValid(t) ==> TablesValid(r.value)
  {
    if id !in t.meetings then Failure(NotFoundMessage)
    else
      var m := t.meetings[id].(status := Some(ToUpper(status)));
      if IsCompletion(status) then
        var k := t.nextCompletedId;
        Success(t.(meetings := t.meetings - {id}, completed := t.completed[k := Archive(m, k)],
                   nextCompletedId := k + 1))
      else
        Success(t.(meetings := t.meetings[id := m]))
  }

  /** Any status but "completed" (in any letter case) is stored upper-cased and the meeting stays:
      there is no transition check, so a cancelled meeting can be given any status again. */
  lemma OtherStatusIsStored(t: Tables, id: int, status: string)
    requires id in t.meetings && !IsCompletion(status)
    ensures var r := StatusChange(t, id, status);
            r.Success? && r.value.meetings.Keys == t.meetings.Keys && r.value.completed == t.completed &&
            r.value.meetings[id] == t.meetings[id].(status := Some(ToUpper(status))) &&
            forall k :: k in t.meetings && k != id ==> r.value.meetings[k] == t.meetings[k]
  {
  }

  /** "completed" in any letter case moves the meeting: it leaves the scheduled table and exactly one
      archive row is added, with the meeting's fields and status "Completed". */
  lemma CompletionMovesMeeting(t: Tables, id: int, status: string)
    requires TablesValid(t) && id in t.meetings && IsCompletion(status)
    ensures var r := StatusChange(t, id, status);
            r.Success? && r.value.meetings == t.meetings - {id} &&
            t.nextCompletedId !in t.completed &&
            r.value.completed == t.completed[t.nextCompletedId := Archive(t.meetings[id], t.nextCompletedId)] &&
            |r.value.completed| == |t.completed| + 1
  {
  }

  /** The effect of `updateStatus` depends on the status only through its upper-case form. */
  lemma StatusEffectIgnoresCase(t: Tables, id: int, a: string, b: string)
    requires ToUpper(a) == ToUpper(b)
    ensures StatusChange(t, id, a) == StatusChange(t, id, b)
  {
    EqualsIgnoreCaseIsUpperEquality("COMPLETED", a);
    EqualsIgnoreCaseIsUpperEquality("COMPLETED", b);
  }

  /** "Completed", the status the archive rows get and the one the complete endpoint passes, is a
      completion with the same upper-case form as "COMPLETED". */
  lemma CompletedSpellingsAgree()
    ensures ToUpper("Completed") == ToUpper("COMPLETED") == "COMPLETED"
    ensures IsCompletion("Completed") && IsCompletion("COMPLETED")
  {
    assert ToUpper("Completed") == "COMPLETED" by {
      assert ToUpper("Completed")[1] == 'O';
    }
    ToUpperOfLiteral("COMPLETED");
    EqualsIgnoreCaseIsUpperEquality("COMPLETED", "Completed");
    EqualsIgnoreCaseIsUpperEquality("COMPLETED", "COMPLETED");
  }

  // ---------------------------------------------------------------- queries

  /** `m` is the row stored under its own id. */
  predicate Stored(t: Tables, m: VisitorMeeting) {
    m.id.Some? && m.id.value in t.meetings && t.meetings[m.id.value] == m
  }

  /** `findAll` on the scheduled table: every row, and in valid tables nothing but rows. */
  function AllMeetings(t: Tables): (r: set<VisitorMeeting>)
    ensures forall k :: k in t.meetings ==> t.meetings[k] in r
    ensures TablesValid(t) ==> forall m :: m in r ==> Stored(t, m)
  {
    set k | k in t.meetings :: t.meetings[k]
  }

  /** `findAll` on the archive. */
  function AllCompleted(t: Tables): (r: set<CompletedVisitor>)
    ensures forall k :: k in t.completed ==> t.completed[k] in r
    ensures TablesValid(t) ==> forall c :: c in r ==> c.id in t.completed && t.completed[c.id] == c
  {
    set k | k in t.completed :: t.completed[k]
  }

  /** `findByScheduledDate(d)`: the rows dated exactly `d`. */
  function OnDate(t: Tables, d: Date): (r: set<VisitorMeeting>)
    ensures forall k :: k in t.meetings ==> (t.meetings[k] in r <==> t.meetings[k].scheduledDate == Some(d))
    ensures forall m :: m in r ==> m.scheduledDate == Some(d)
    ensures TablesValid(t) ==> forall m :: m in r ==> Stored(t, m)
  {
    set k | k in t.meetings && t.meetings[k].scheduledDate == Some(d) :: t.meetings[k]
  }

  /** `findByScheduledDateAfter(d)`: the rows dated strictly after `d`. */
  function After(t: Tables, d: Date): (r: set<VisitorMeeting>)
    ensures forall k :: k in t.meetings ==>
              (t.meetings[k] in r <==> t.meetings[k].scheduledDate.Some? && Before(d, t.meetings[k].scheduledDate.value))
    ensures forall m :: m in r ==> m.scheduledDate.Some? && Before(d, m.scheduledDate.value)
    ensures TablesValid(t) ==> forall m :: m in r ==> Stored(t, m)
  {
    set k | k in t.meetings && t.meetings[k].scheduledDate.Some? && Before(d, t.meetings[k].scheduledDate.value)
      :: t.meetings[k]
  }

  /** No row is both dated `d` and after `d`; a row without a date is in neither. */
  lemma DateQueriesDisjoint(t: Tables, d: Date, m: VisitorMeeting)
    ensures !(m in OnDate(t, d) && m in After(t, d))
    ensures m.scheduledDate.None? ==> m !in OnDate(t, d) && m !in After(t, d)
  {
    BeforeIrreflexive(d);
  }

  /** A meeting just scheduled for `d` is listed for `d`, with status "SCHEDULED". */
  lemma ScheduledMeetingIsListed(t: Tables, v: VisitorMeeting, d: Date)
    requires v.scheduledDate == Some(d)
    ensures var s := Schedule(t, v); s.meeting in OnDate(s.tables, d) && s.meeting.status == Some("SCHEDULED")
  {
  }

  /** After a completion no query lists a row with that meeting's id any more. */
  lemma CompletedMeetingLeavesQueries(t: Tables, id: int, status: string, d: Date)
    requires TablesValid(t) && id in t.meetings && IsCompletion(status)
    ensures var r := StatusChange(t, id, status);
            r.Success? &&
            forall m :: m in AllMeetings(r.value) + OnDate(r.value, d) + After(r.value, d) ==> m.id != Some(id)
  {
  }

  // ---------------------------------------------------------------- the service object

  /** The service with its two repositories. */
  class VisitorMeetingStore {
    var meetings: map<int, VisitorMeeting>
    var completed: map<int, CompletedVisitor>
    var nextMeetingId: int
    var nextCompletedId: int

    function State(): Tables
      reads this
    {
      Tables(meetings, completed, nextMeetingId, nextCompletedId)
    }

    predicate Valid()
      reads this
    {
      TablesValid(State())
    }

    /** Two empty tables whose keys start at 1. */
    constructor ()
      ensures State() == Tables(map[], map[], 1, 1) && Valid()
    {
      meetings := map[];
      completed := map[];
      nextMeetingId := 1;
      nextCompletedId := 1;
    }

    method ScheduleVisitor(visitor: VisitorMeeting) returns (saved: VisitorMeeting)
      requires Valid()
      modifies this
      ensures Valid()
      ensures State() == Schedule(old(State()), visitor).tables && saved == Schedule(old(State()), visitor).meeting
      ensures saved.status == Some("SCHEDULED")
    {
      var v := visitor.(status := Some("SCHEDULED"));
      var k := if v.id.Some? && v.id.value in meetings then v.id.value else nextMeetingId;
      v := v.(id := Some(k));
      meetings := meetings[k := v];
      if k == nextMeetingId {
        nextMeetingId := k + 1;
      }
      saved := v;
    }

    method UpdateVisitor(id: int, updatedVisitor: VisitorMeeting) returns (r: Result<VisitorMeeting>)
      requires Valid()
      modifies this
      ensures Valid()
      ensures var u := Update(old(State()), id, updatedVisitor);
              (u.Failure? ==> r == Failure(u.message) && State() == old(State())) &&
              (u.Success? ==> r == Success(u.value.meeting) && State() == u.value.tables)
    {
      if id !in meetings {
        return Failure(NotFoundMessage);
      }
      var existing := meetings[id];
      existing := existing.(visitorName := updatedVisitor.visitorName);
      existing := existing.(visitorContact := updatedVisitor.visitorContact);
      existing := existing.(inmateName := updatedVisitor.inmateName);
      existing := existing.(purpose := updatedVisitor.purpose);
      existing := existing.(scheduledDate := updatedVisitor.scheduledDate);
      existing := existing.(scheduledTime := updatedVisitor.scheduledTime);
      existing := existing.(remarks := updatedVisitor.remarks);
      meetings := meetings[id := existing];
      r := Success(existing);
    }

    method DeleteVisitor(id: int)
      requires Valid()
      modifies this
      ensures Valid()
      ensures State() == Delete(old(State()), id)
    {
      meetings := meetings - {id};
    }

    method UpdateStatus(id: int, status: string) returns (error: Option<string>)
      requires Valid()
      modifies this
      ensures Valid()
      ensures var s := StatusChange(old(State()), id, status);
              (s.Failure? ==> error == Some(s.message) && State() == old(State())) &&
              (s.Success? ==> error == None && State() == s.value)
    {
      if id !in meetings {
        return Some(NotFoundMessage);
      }
      var meeting := meetings[id];
      meeting := meeting.(status := Some(ToUpper(status)));
      meetings := meetings[id := meeting];
      if EqualsIgnoreCase("COMPLETED", status) {
        var archived := Archive(meeting, nextCompletedId);
        completed := completed[nextCompletedId := archived];
        nextCompletedId := nextCompletedId + 1;
        meetings := meetings - {id};
      }
      error := None;
    }
  }
}

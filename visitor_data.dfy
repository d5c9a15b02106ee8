/**
 * The visitor records page: one list of every meeting filtered by a selector (all, scheduled today,
 * upcoming) and a free-text search, or the completed list as fetched; six records a page; a status
 * label per record; delete and edit handlers that reload the list.
 */
module VisitorData {
  import opened Wrappers
  import opened Text
  import opened Seqs
  import opened Paging
  import opened Visitors
  import opened VisitorService

  const PageSize := 6

  datatype ListFilter = All | ScheduledToday | CompletedToday | Upcoming

  /** The selector's own test, applied to the list of all meetings. */
  predicate InFilter(filter: ListFilter, v: Meeting, today: string) {
    match filter
    case ScheduledToday => IsScheduledToday(v, today)
    case Upcoming => IsUpcoming(v, today)
    case _ => true
  }

  /** The search test as written: an empty search is skipped rather than matched. */
  predicate PassesSearch(v: Meeting, search: string) {
    search == "" || MatchesSearch(v, search)
  }

  /**
   * `filteredVisitors`: the completed list untouched (the search does not apply to it), otherwise the
   * meetings that pass both the search and the selector, in their original order.
   */
  function FilteredVisitors(filter: ListFilter, all: seq<Meeting>, completed: seq<Meeting>,
                            search: string, today: string): (r: seq<Meeting>)
    ensures filter == CompletedToday ==> r == completed
    ensures filter != CompletedToday ==>
              forall v :: v in r <==> v in all && MatchesSearch(v, search) && InFilter(filter, v, today)
    ensures filter != CompletedToday ==> |r| <= |all|
  {
    if filter == CompletedToday then completed
    else
      var r := Filter(all, (v: Meeting) => PassesSearch(v, search) && InFilter(filter, v, today));
      forall v ensures v in r <==> v in all && MatchesSearch(v, search) && InFilter(filter, v, today) {
        EmptySearchMatchesAll(v);
      }
      r
  }

  /** With the "All" selector and no search, every meeting is listed, in order. */
  lemma AllUnsearchedIsEveryMeeting(all: seq<Meeting>, completed: seq<Meeting>, today: string)
    ensures FilteredVisitors(All, all, completed, "", today) == all
  {
    FilterKeepsAll(all, (v: Meeting) => PassesSearch(v, "") && InFilter(All, v, today));
  }

  /** A search narrows whichever selector is in force, except the completed one. */
  lemma SearchNarrows(filter: ListFilter, all: seq<Meeting>, completed: seq<Meeting>,
                      search: string, today: string, v: Meeting)
    requires v in FilteredVisitors(filter, all, completed, search, today)
    ensures v in FilteredVisitors(filter, all, completed, "", today)
  {
    EmptySearchMatchesAll(v);
  }

  /** `getVisitorStatus`: the label shown for a record. */
  function VisitorStatus(v: Meeting, today: string): (shown: string)
    ensures shown == "Cancelled" <==> HasStatus(v, "CANCELLED")
    ensures shown == "Completed" <==> HasStatus(v, "Completed")
    ensures shown == "Scheduled" <==>
              !HasStatus(v, "CANCELLED") && !HasStatus(v, "Completed")
              && (v.scheduledDate == today || !Less(today, v.scheduledDate))
    ensures shown == "Upcoming" <==>
              !HasStatus(v, "CANCELLED") && !HasStatus(v, "Completed") && v.scheduledDate != today
              && Less(today, v.scheduledDate)
    ensures shown in {"Cancelled", "Completed", "Scheduled", "Upcoming"}
  {
    if v.status == Some("CANCELLED") then "Cancelled"
    else if v.status == Some("Completed") then "Completed"
    else if v.scheduledDate == today then "Scheduled"
    else if Less(today, v.scheduledDate) then "Upcoming"
    else "Scheduled"
  }

  /** The label tests the title-case "Completed": an upper-case "COMPLETED" record is never labelled
      completed, and one dated today reads "Scheduled". */
  lemma UpperCaseCompletedIsNotLabelled(v: Meeting, today: string)
    requires HasStatus(v, "COMPLETED")
    ensures VisitorStatus(v, today) != "Completed"
    ensures v.scheduledDate == today ==> VisitorStatus(v, today) == "Scheduled"
  {
  }

  /** A past-dated meeting that is neither cancelled nor completed still reads "Scheduled". */
  lemma PastMeetingReadsScheduled(v: Meeting, today: string)
    requires !HasStatus(v, "CANCELLED") && !HasStatus(v, "Completed") && Less(v.scheduledDate, today)
    ensures VisitorStatus(v, today) == "Scheduled"
  {
    LessIrreflexive(today);
    LessAsymmetric(v.scheduledDate, today);
  }

  class VisitorDataPage {
    var allVisitors: seq<Meeting>
    var completedVisitors: seq<Meeting>
    var loading: bool
    var editingVisitor: Option<Meeting>
    var filter: ListFilter
    var search: string
    var page: int
    var sent: seq<Op>
    /** The date the page computed once, when it was rendered. */
    const today: string

    constructor (today: string)
      ensures this.today == today && filter == All && search == "" && page == 1
      ensures allVisitors == [] && completedVisitors == [] && loading && editingVisitor == None && sent == []
    {
      this.today := today;
      allVisitors, completedVisitors, loading, editingVisitor := [], [], true, None;
      filter, search, page, sent := All, "", 1, [];
    }

    function Filtered(): seq<Meeting>
      reads this
    {
      FilteredVisitors(filter, allVisitors, completedVisitors, search, today)
    }

    /** `Math.max(1, Math.ceil(filteredVisitors.length / 6))`. */
    function TotalPages(): (r: int)
      reads this
      ensures r >= 1
    {
      PageCountMax1(|Filtered()|, PageSize)
    }

    /** The records of the current page: at most six, and record `i` on page `i / 6 + 1`. */
    function PageItems(): (r: seq<Meeting>)
      reads this
      ensures |r| <= PageSize
      ensures page >= 1 ==> forall i :: (page - 1) * PageSize <= i < page * PageSize && i < |Filtered()| ==>
                              i - (page - 1) * PageSize < |r| && r[i - (page - 1) * PageSize] == Filtered()[i]
    {
      PageSliceBounded(Filtered(), page, PageSize);
      PageSlice(Filtered(), page, PageSize)
    }

    /** `load`: the list of all meetings, replaced only when the request resolves. */
    method Load(outcome: Fetch<seq<Meeting>>)
      modifies this`allVisitors, this`loading, this`sent
      ensures sent == old(sent) + [GetAll] && !loading
      ensures allVisitors == (if outcome.Got? then outcome.value else old(allVisitors))
    {
      loading := true;
      sent := sent + [GetAll];
      if outcome.Got? {
        allVisitors := outcome.value;
      }
      loading := false;
    }

    /** `loadCompleted`: the completed list, replaced only when the request resolves. */
    method LoadCompleted(outcome: Fetch<seq<Meeting>>)
      modifies this`completedVisitors, this`loading, this`sent
      ensures sent == old(sent) + [GetCompleted] && !loading
      ensures completedVisitors == (if outcome.Got? then outcome.value else old(completedVisitors))
    {
      loading := true;
      sent := sent + [GetCompleted];
      if outcome.Got? {
        completedVisitors := outcome.value;
      }
      loading := false;
    }

    /** A selector button: back to page 1; switching to the completed selector fetches that list (the
        effect runs only when the selector actually changes). */
    method SetFilter(f: ListFilter, completed: Fetch<seq<Meeting>>)
      modifies this`filter, this`page, this`completedVisitors, this`loading, this`sent
      ensures filter == f && page == 1
      ensures f == CompletedToday && old(filter) != CompletedToday ==>
                sent == old(sent) + [GetCompleted]
                && completedVisitors == (if completed.Got? then completed.value else old(completedVisitors))
      ensures !(f == CompletedToday && old(filter) != CompletedToday) ==>
                sent == old(sent) && completedVisitors == old(completedVisitors)
    {
      var changed := filter != f;
      filter := f;
      page := 1;
      if f == CompletedToday && changed {
        LoadCompleted(completed);
      }
    }

    /** Typing in the search box: back to page 1. */
    method SetSearch(s: string)
      modifies this`search, this`page
      ensures search == s && page == 1
    {
      search := s;
      page := 1;
    }

    /** `handleDelete(id)`: nothing without an id or without the user's confirmation; otherwise the delete
        request, and the list is reloaded once it resolves. */
    method HandleDelete(id: Option<int>, confirmed: bool, deleteResolved: bool, reload: Fetch<seq<Meeting>>)
      modifies this`allVisitors, this`loading, this`sent
      ensures !IsTruthyId(id) || !confirmed ==> sent == old(sent) && allVisitors == old(allVisitors)
      ensures IsTruthyId(id) && confirmed ==>
                sent == old(sent) + [DeleteMeeting(id.value)] + (if deleteResolved then [GetAll] else [])
      ensures !IsTruthyId(id) || !confirmed ==> loading == old(loading)
      ensures IsTruthyId(id) && confirmed && deleteResolved ==>
                allVisitors == (if reload.Got? then reload.value else old(allVisitors)) && !loading
      ensures !deleteResolved ==> allVisitors == old(allVisitors) && loading == old(loading)
    {
      if !IsTruthyId(id) {
        return;
      }
      if !confirmed {
        return;
      }
      sent := sent + [DeleteMeeting(id.value)];
      if deleteResolved {
        Load(reload);
      }
    }

    /** The Edit button opens the dialog on a record. */
    method Edit(v: Meeting)
      modifies this`editingVisitor
      ensures editingVisitor == Some(v)
    {
      editingVisitor := Some(v);
    }

    /** `handleEditSave`: with an id, the update request carrying the edited record; once it resolves the
        dialog closes and the list is reloaded. */
    method HandleEditSave(updateResolved: bool, reload: Fetch<seq<Meeting>>)
      modifies this`allVisitors, this`loading, this`sent, this`editingVisitor
      ensures old(editingVisitor).None? || !IsTruthyId(old(editingVisitor).value.id) ==>
                sent == old(sent) && allVisitors == old(allVisitors) && editingVisitor == old(editingVisitor)
      ensures old(editingVisitor).Some? && IsTruthyId(old(editingVisitor).value.id) ==>
                sent == old(sent) + [UpdateMeeting(old(editingVisitor).value.id.value, old(editingVisitor).value)]
                        + (if updateResolved then [GetAll] else [])
                && editingVisitor == (if updateResolved then None else old(editingVisitor))
      ensures old(editingVisitor).Some? && IsTruthyId(old(editingVisitor).value.id) && !updateResolved ==>
                allVisitors == old(allVisitors) && loading == old(loading)
      ensures old(editingVisitor).None? || !IsTruthyId(old(editingVisitor).value.id) ==> loading == old(loading)
      ensures old(editingVisitor).Some? && IsTruthyId(old(editingVisitor).value.id) && updateResolved ==>
                allVisitors == (if reload.Got? then reload.value else old(allVisitors)) && !loading
    {
      if editingVisitor.None? || !IsTruthyId(editingVisitor.value.id) {
        return;
      }
      sent := sent + [UpdateMeeting(editingVisitor.value.id.value, editingVisitor.value)];
      if !updateResolved {
        return;
      }
      editingVisitor := None;
      Load(reload);
    }

    /** "Previous": `Math.max(1, p - 1)`. */
    method Previous()
      modifies this`page
      ensures page == PrevPage(old(page))
      ensures page >= 1 && (old(page) <= TotalPages() ==> page <= TotalPages())
    {
      page := PrevPage(page);
    }

    /** "Next": `Math.min(totalPages, p + 1)`. */
    method Next()
      modifies this`page
      ensures page == NextPage(old(page), TotalPages())
      ensures page <= TotalPages() && (old(page) >= 1 ==> page >= 1)
    {
      page := NextPage(page, TotalPages());
    }
  }
}

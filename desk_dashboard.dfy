/**
 * The desk officer's dashboard: today's visitor log built from the full meeting list (three date
 * buckets, each sorted by time, paged three at a time), the quick visitor actions, and the criminal
 * list with its search, paging (four per page), save and delete handlers.
 */
module DeskDashboard {
  import opened Wrappers
  import opened Text
  import opened Seqs
  import opened Paging
  import opened Visitors
  import opened CriminalForm
  import VisitorService

  const VisitorLimit := 3
  const RecordsPerPage := 4

  // ---------------------------------------------------------------- visitor buckets

  /** The buckets of the loading effect, with upper-case status literals, each sorted by time. */
  function ScheduledTodayOf(all: seq<Meeting>, today: string): (r: seq<Meeting>)
    ensures SortedByTime(r)
    ensures multiset(r) == multiset(Filter(all, (v: Meeting) => IsScheduledToday(v, today)))
  {
    SortByTime(Filter(all, (v: Meeting) => IsScheduledToday(v, today)))
  }

  function CompletedTodayOf(all: seq<Meeting>, today: string): (r: seq<Meeting>)
    ensures SortedByTime(r)
    ensures multiset(r) == multiset(Filter(all, (v: Meeting) => IsCompletedToday(v, today)))
  {
    SortByTime(Filter(all, (v: Meeting) => IsCompletedToday(v, today)))
  }

  function UpcomingOf(all: seq<Meeting>, today: string): (r: seq<Meeting>)
    ensures SortedByTime(r)
    ensures multiset(r) == multiset(Filter(all, (v: Meeting) => IsUpcoming(v, today)))
  {
    SortByTime(Filter(all, (v: Meeting) => IsUpcoming(v, today)))
  }

  /** A loaded bucket holds exactly the records of the full list that satisfy its predicate. */
  lemma LoadedBucketsAreFilters(all: seq<Meeting>, today: string, v: Meeting)
    ensures v in ScheduledTodayOf(all, today) <==> v in all && IsScheduledToday(v, today)
    ensures v in CompletedTodayOf(all, today) <==> v in all && IsCompletedToday(v, today)
    ensures v in UpcomingOf(all, today) <==> v in all && IsUpcoming(v, today)
  {
    assert v in ScheduledTodayOf(all, today) <==> v in multiset(ScheduledTodayOf(all, today));
    assert v in CompletedTodayOf(all, today) <==> v in multiset(CompletedTodayOf(all, today));
    assert v in UpcomingOf(all, today) <==> v in multiset(UpcomingOf(all, today));
  }

  /** The predicates of the recompute after a quick action: title-case literals "Cancelled"/"Completed". */
  predicate IsScheduledTodayAfterAction(v: Meeting, today: string) {
    !HasStatus(v, "Cancelled") && v.scheduledDate == today && !HasStatus(v, "Completed")
  }

  predicate IsCompletedTodayAfterAction(v: Meeting, today: string) {
    HasStatus(v, "Completed") && v.scheduledDate == today
  }

  predicate IsUpcomingAfterAction(v: Meeting, today: string) {
    Less(today, v.scheduledDate) && !HasStatus(v, "Cancelled")
  }

  /** The buckets recomputed after a quick action: the same filters with the title-case literals, unsorted. */
  function ScheduledTodayAfterActionOf(all: seq<Meeting>, today: string): (r: seq<Meeting>)
    ensures forall v :: v in r <==> v in all && IsScheduledTodayAfterAction(v, today)
  {
    Filter(all, (v: Meeting) => IsScheduledTodayAfterAction(v, today))
  }

  function CompletedTodayAfterActionOf(all: seq<Meeting>, today: string): (r: seq<Meeting>)
    ensures forall v :: v in r <==> v in all && IsCompletedTodayAfterAction(v, today)
  {
    Filter(all, (v: Meeting) => IsCompletedTodayAfterAction(v, today))
  }

  function UpcomingAfterActionOf(all: seq<Meeting>, today: string): (r: seq<Meeting>)
    ensures forall v :: v in r <==> v in all && IsUpcomingAfterAction(v, today)
  {
    Filter(all, (v: Meeting) => IsUpcomingAfterAction(v, today))
  }

  /** A meeting the backend stores as "CANCELLED" is dropped from today's log by a load, but kept by the
      recompute that follows a quick action. */
  lemma UpperCaseCancelledReappears(v: Meeting, today: string)
    requires HasStatus(v, "CANCELLED") && v.scheduledDate == today
    ensures !IsScheduledToday(v, today)
    ensures IsScheduledTodayAfterAction(v, today)
  {
  }

  // ---------------------------------------------------------------- criminals

  /** `if (criminal.id)`: the id is present and not 0. */
  predicate HasTruthyId(c: CriminalFormData) {
    c.id.Some? && c.id.value != 0
  }

  /** The suspect list after a save whose response body decoded to `saved`. */
  function SavedList(suspects: seq<CriminalFormData>, criminal: CriminalFormData, saved: CriminalFormData): (r: seq<CriminalFormData>)
    ensures HasTruthyId(criminal) ==> |r| == |suspects|
    ensures !HasTruthyId(criminal) ==> |r| == |suspects| + 1 && r[..|suspects|] == suspects && r[|suspects|] == saved
  {
    if HasTruthyId(criminal) then ReplaceById(suspects, saved) else suspects + [saved]
  }

  /** An edit replaces just the one record with the saved id when ids are unique. */
  lemma SavedEditIsUpdate(suspects: seq<CriminalFormData>, criminal: CriminalFormData, saved: CriminalFormData, k: nat)
    requires HasTruthyId(criminal) && UniqueIds(suspects) && k < |suspects|
    requires saved.id.Some? && suspects[k].id == saved.id
    ensures SavedList(suspects, criminal, saved) == suspects[k := saved]
  {
    ReplaceByIdIsUpdate(suspects, saved, k);
  }

  /** A record whose id is 0 is treated as new: saving it appends rather than replaces. */
  lemma ZeroIdIsAppended(suspects: seq<CriminalFormData>, criminal: CriminalFormData, saved: CriminalFormData)
    requires criminal.id == Some(0)
    ensures SavedList(suspects, criminal, saved) == suspects + [saved]
  {
  }

  datatype VisitorAction = CheckIn | CompleteVisit | CancelVisit

  function ActionName(a: VisitorAction): string {
    match a
    case CheckIn => "checkin"
    case CompleteVisit => "complete"
    case CancelVisit => "cancel"
  }

  /** The alert texts of a quick action: `Error performing ${action}` and `Visitor ${action} successful`. */
  function ActionFailed(a: VisitorAction): string {
    "Error performing " + ActionName(a)
  }

  function ActionSucceeded(a: VisitorAction): string {
    "Visitor " + ActionName(a) + " successful"
  }

  /** The visitor requests a quick action sends: none for a check-in; otherwise the status update and,
      once that resolves, the reload. */
  function ActionRequests(id: int, action: VisitorAction, statusResolved: bool): (r: seq<VisitorService.Op>)
    ensures action == CheckIn <==> r == []
    ensures action == CompleteVisit ==> r[0] == VisitorService.Complete(id)
    ensures action == CancelVisit ==> r[0] == VisitorService.Cancel(id)
    ensures action != CheckIn ==> (statusResolved <==> VisitorService.GetAll in r)
  {
    if action == CheckIn then []
    else
      var op := if action == CompleteVisit then VisitorService.Complete(id) else VisitorService.Cancel(id);
      if statusResolved then [op, VisitorService.GetAll] else [op]
  }

  /** The criminal requests the dashboard sends. */
  datatype CriminalRequest = PutCriminal(id: int) | PostCriminal | DeleteCriminal(id: int)

  class Dashboard {
    var suspects: seq<CriminalFormData>
    var filteredSuspects: seq<CriminalFormData>
    var searchQuery: string
    var currentPage: int
    var showCriminalForm: bool
    var editingCriminal: Option<CriminalFormData>
    var alertMessage: Option<string>
    var criminalRequests: seq<CriminalRequest>

    var visitors: seq<Meeting>
    var scheduledToday: seq<Meeting>
    var completedToday: seq<Meeting>
    var upcoming: seq<Meeting>
    var visitorLoading: bool
    var visitorPage: int
    var visitorRequests: seq<VisitorService.Op>

    constructor ()
      ensures suspects == [] && filteredSuspects == [] && searchQuery == "" && currentPage == 1
      ensures !showCriminalForm && editingCriminal == None && alertMessage == None && criminalRequests == []
      ensures visitors == [] && scheduledToday == [] && completedToday == [] && upcoming == []
      ensures visitorLoading && visitorPage == 1 && visitorRequests == []
    {
      suspects, filteredSuspects, searchQuery, currentPage := [], [], "", 1;
      showCriminalForm, editingCriminal, alertMessage, criminalRequests := false, None, None, [];
      visitors, scheduledToday, completedToday, upcoming := [], [], [], [];
      visitorLoading, visitorPage, visitorRequests := true, 1, [];
    }

    /** `Math.max(1, Math.ceil(scheduledToday.length / 3))`. */
    function TotalVisitorPages(): (n: int)
      reads this
      ensures n >= 1
    {
      PageCountMax1(|scheduledToday|, VisitorLimit)
    }

    /** The visitor rows shown on the current visitor page. */
    function VisitorPageItems(): (r: seq<Meeting>)
      reads this
      ensures |r| <= VisitorLimit
    {
      PageSliceBounded(scheduledToday, visitorPage, VisitorLimit);
      PageSlice(scheduledToday, visitorPage, VisitorLimit)
    }

    /** `Math.ceil(filteredSuspects.length / 4) || 1`. */
    function TotalPages(): (n: int)
      reads this
      ensures n >= 1
    {
      PageCountOr1(|filteredSuspects|, RecordsPerPage)
    }

    function CurrentRecords(): (r: seq<CriminalFormData>)
      reads this
      ensures |r| <= RecordsPerPage
    {
      PageSliceBounded(filteredSuspects, currentPage, RecordsPerPage);
      PageSlice(filteredSuspects, currentPage, RecordsPerPage)
    }

    /** The visitor-loading effect: fetch every meeting, then fill the three sorted buckets. */
    method LoadVisitors(today: string, outcome: Fetch<seq<Meeting>>)
      modifies this`visitors, this`scheduledToday, this`completedToday, this`upcoming
      modifies this`visitorLoading, this`visitorRequests
      ensures visitorRequests == old(visitorRequests) + [VisitorService.GetAll]
      ensures !visitorLoading
      ensures outcome.Got? ==> visitors == outcome.value
                               && scheduledToday == ScheduledTodayOf(outcome.value, today)
                               && completedToday == CompletedTodayOf(outcome.value, today)
                               && upcoming == UpcomingOf(outcome.value, today)
      ensures outcome.Threw? ==> visitors == old(visitors) && scheduledToday == old(scheduledToday)
                                 && completedToday == old(completedToday) && upcoming == old(upcoming)
    {
      visitorLoading := true;
      visitorRequests := visitorRequests + [VisitorService.GetAll];
      if outcome.Got? {
        SetVisitors(outcome.value, today);
      }
      visitorLoading := false;
    }

    /** The success branch of the effect: the list and its three sorted buckets. */
    method SetVisitors(all: seq<Meeting>, today: string)
      modifies this`visitors, this`scheduledToday, this`completedToday, this`upcoming
      ensures visitors == all && scheduledToday == ScheduledTodayOf(all, today)
      ensures completedToday == CompletedTodayOf(all, today) && upcoming == UpcomingOf(all, today)
    {
      visitors := all;
      scheduledToday := ScheduledTodayOf(all, today);
      completedToday := CompletedTodayOf(all, today);
      upcoming := UpcomingOf(all, today);
    }

    /**
     * `handleVisitorAction(id, action)`. A check-in calls a method the service does not have, so it
     * fails before any request. Otherwise the status request is sent and, if it resolves, the list is
     * fetched again and the buckets recomputed with the title-case literals and without sorting.
     */
    method HandleVisitorAction(id: int, action: VisitorAction, statusResolved: bool,
                               reload: Fetch<seq<Meeting>>, today: string)
      modifies this`visitors, this`scheduledToday, this`completedToday, this`upcoming
      modifies this`alertMessage, this`visitorRequests
      ensures action == CheckIn ==> visitorRequests == old(visitorRequests)
      ensures action == CheckIn || !statusResolved || reload.Threw? ==>
                visitors == old(visitors) && scheduledToday == old(scheduledToday)
                && completedToday == old(completedToday) && upcoming == old(upcoming)
                && alertMessage == Some(ActionFailed(action))
      ensures visitorRequests == old(visitorRequests) + ActionRequests(id, action, statusResolved)
      ensures action != CheckIn && statusResolved && reload.Got? ==>
                visitors == reload.value
                && scheduledToday == ScheduledTodayAfterActionOf(reload.value, today)
                && completedToday == CompletedTodayAfterActionOf(reload.value, today)
                && upcoming == UpcomingAfterActionOf(reload.value, today)
                && alertMessage == Some(ActionSucceeded(action))
    {
      if action == CheckIn {
        alertMessage := Some(ActionFailed(action));
        return;
      }
      visitorRequests := visitorRequests + ActionRequests(id, action, statusResolved);
      if !statusResolved {
        alertMessage := Some(ActionFailed(action));
        return;
      }
      match reload {
        case Threw =>
          alertMessage := Some(ActionFailed(action));
        case Got(all) =>
          SetVisitorsAfterAction(all, today);
          alertMessage := Some(ActionSucceeded(action));
      }
    }

    /** The reload after a quick action: the list and its three buckets, unsorted. */
    method SetVisitorsAfterAction(all: seq<Meeting>, today: string)
      modifies this`visitors, this`scheduledToday, this`completedToday, this`upcoming
      ensures visitors == all && scheduledToday == ScheduledTodayAfterActionOf(all, today)
      ensures completedToday == CompletedTodayAfterActionOf(all, today) && upcoming == UpcomingAfterActionOf(all, today)
    {
      visitors := all;
      scheduledToday := ScheduledTodayAfterActionOf(all, today);
      completedToday := CompletedTodayAfterActionOf(all, today);
      upcoming := UpcomingAfterActionOf(all, today);
    }

    /**
     * `handleSaveCriminal`: PUT for a truthy id, POST otherwise; the decoded body replaces (by id) or is
     * appended. The HTTP status is not looked at. The form closes whatever happens.
     */
    method HandleSaveCriminal(criminal: CriminalFormData, outcome: Fetch<CriminalFormData>)
      modifies this`suspects, this`alertMessage, this`showCriminalForm, this`editingCriminal
      modifies this`criminalRequests
      ensures criminalRequests == old(criminalRequests) +
                [if HasTruthyId(criminal) then PutCriminal(criminal.id.value) else PostCriminal]
      ensures outcome.Got? ==> suspects == SavedList(old(suspects), criminal, outcome.value)
                               && alertMessage == Some(if HasTruthyId(criminal) then "Criminal updated successfully!"
                                                       else "Criminal added successfully!")
      ensures outcome.Threw? ==> suspects == old(suspects) && alertMessage == Some("Error saving criminal")
      ensures !showCriminalForm && editingCriminal == None
    {
      if criminal.id.Some? && criminal.id.value != 0 {
        criminalRequests := criminalRequests + [PutCriminal(criminal.id.value)];
        if outcome.Got? {
          var saved := outcome.value;
          suspects := ReplaceById(suspects, saved);
          alertMessage := Some("Criminal updated successfully!");
        } else {
          alertMessage := Some("Error saving criminal");
        }
      } else {
        criminalRequests := criminalRequests + [PostCriminal];
        if outcome.Got? {
          suspects := suspects + [outcome.value];
          alertMessage := Some("Criminal added successfully!");
        } else {
          alertMessage := Some("Error saving criminal");
        }
      }
      showCriminalForm := false;
      editingCriminal := None;
    }

    /** `handleDelete(id)`: after confirmation, the DELETE is sent and, unless it throws, every record
        with that id leaves the list, whatever status the response carries. */
    method HandleDelete(id: int, confirmed: bool, fetchResolved: bool)
      modifies this`suspects, this`alertMessage, this`criminalRequests
      ensures !confirmed ==> suspects == old(suspects) && criminalRequests == old(criminalRequests)
                             && alertMessage == old(alertMessage)
      ensures confirmed ==> criminalRequests == old(criminalRequests) + [DeleteCriminal(id)]
      ensures confirmed && fetchResolved ==>
                suspects == RemoveById(old(suspects), id) && alertMessage == Some("Criminal deleted successfully!")
      ensures confirmed && !fetchResolved ==> suspects == old(suspects) && alertMessage == Some("Error deleting criminal")
    {
      if !confirmed {
        return;
      }
      criminalRequests := criminalRequests + [DeleteCriminal(id)];
      if fetchResolved {
        suspects := RemoveById(suspects, id);
        alertMessage := Some("Criminal deleted successfully!");
      } else {
        alertMessage := Some("Error deleting criminal");
      }
    }

    method SetSearchQuery(q: string)
      modifies this`searchQuery
      ensures searchQuery == q
    {
      searchQuery := q;
    }

    /** The search effect, run whenever the query or the suspects change: filter, back to page 1. */
    method SearchEffect()
      modifies this`filteredSuspects, this`currentPage
      ensures filteredSuspects == SearchCriminals(suspects, searchQuery)
      ensures currentPage == 1 && 1 <= currentPage <= TotalPages()
    {
      filteredSuspects := SearchCriminals(suspects, searchQuery);
      currentPage := 1;
    }

    /** The visitor log's Prev button: `Math.max(1, p - 1)`. */
    method VisitorPrev()
      modifies this`visitorPage
      ensures visitorPage == PrevPage(old(visitorPage))
      ensures 1 <= old(visitorPage) <= TotalVisitorPages() ==> 1 <= visitorPage <= TotalVisitorPages()
    {
      visitorPage := PrevPage(visitorPage);
    }

    /** The visitor log's Next button: `Math.min(totalVisitorPages, p + 1)`. */
    method VisitorNext()
      modifies this`visitorPage
      ensures visitorPage == NextPage(old(visitorPage), TotalVisitorPages())
      ensures 1 <= old(visitorPage) <= TotalVisitorPages() ==> 1 <= visitorPage <= TotalVisitorPages()
    {
      visitorPage := NextPage(visitorPage, TotalVisitorPages());
    }

    /** The criminal list's Prev button: `Math.max(prev - 1, 1)`. */
    method CriminalPrev()
      modifies this`currentPage
      ensures currentPage == PrevPage(old(currentPage))
      ensures 1 <= old(currentPage) <= TotalPages() ==> 1 <= currentPage <= TotalPages()
    {
      currentPage := PrevPage(currentPage);
    }

    /** The criminal list's Next button: `Math.min(prev + 1, totalPages)`. */
    method CriminalNext()
      modifies this`currentPage
      ensures currentPage == NextPage(old(currentPage), TotalPages())
      ensures 1 <= old(currentPage) <= TotalPages() ==> 1 <= currentPage <= TotalPages()
    {
      currentPage := NextPage(currentPage, TotalPages());
    }
  }
}

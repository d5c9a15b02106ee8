/**
 * The visitors page: the meeting list loaded by mode (today, upcoming, completed), the Complete action,
 * the Cancel dialog that offers reschedule or delete, the confirm-delete and reschedule handlers, the
 * actions offered per card, and the free-text search over the shown cards.
 */
module TodayVisitors {
  import opened Wrappers
  import opened Text
  import opened Seqs
  import opened Visitors
  import opened VisitorService

  /** The page's list selector. */
  datatype Mode = TodayMode | UpcomingMode | CompletedMode

  /** The `loadVisitors` filters; these test the title-case "Cancelled", and only that spelling. */
  predicate ShownToday(v: Meeting, today: string) {
    v.scheduledDate == today && !HasStatus(v, "Cancelled")
  }

  predicate ShownUpcoming(v: Meeting, today: string) {
    Less(today, v.scheduledDate) && !HasStatus(v, "Cancelled")
  }

  /** The list a load shows in each mode: the scheduled list filtered by date, or the completed list as is. */
  function LoadedList(mode: Mode, scheduled: seq<Meeting>, completed: seq<Meeting>, today: string): (r: seq<Meeting>)
    ensures mode == CompletedMode ==> r == completed
    ensures mode == TodayMode ==> forall v :: v in r <==> v in scheduled && ShownToday(v, today)
    ensures mode == UpcomingMode ==> forall v :: v in r <==> v in scheduled && ShownUpcoming(v, today)
  {
    match mode
    case TodayMode => Filter(scheduled, (v: Meeting) => ShownToday(v, today))
    case UpcomingMode => Filter(scheduled, (v: Meeting) => ShownUpcoming(v, today))
    case CompletedMode => completed
  }

  /** An upper-case "CANCELLED" meeting dated today still shows in today's list. */
  lemma UpperCaseCancelledShownToday(v: Meeting, today: string)
    requires HasStatus(v, "CANCELLED") && v.scheduledDate == today
    ensures ShownToday(v, today)
  {
  }

  /** The cards shown: the loaded list filtered by a case-insensitive match on name, inmate and purpose. */
  function Shown(visitors: seq<Meeting>, search: string): (r: seq<Meeting>)
    ensures forall v :: v in r <==> v in visitors && MatchesSearch(v, search)
    ensures search == "" ==> r == visitors
  {
    if search == "" then
      forall i | 0 <= i < |visitors| ensures MatchesSearch(visitors[i], search) {
        EmptySearchMatchesAll(visitors[i]);
      }
      FilterKeepsAll(visitors, (v: Meeting) => MatchesSearch(v, search));
      Filter(visitors, (v: Meeting) => MatchesSearch(v, search))
    else
      Filter(visitors, (v: Meeting) => MatchesSearch(v, search))
  }

  /** Which buttons a card carries. */
  datatype Buttons = Buttons(complete: bool, cancel: bool, reschedule: bool)

  function AvailableActions(v: Meeting, mode: Mode): (b: Buttons)
    ensures b.complete <==> !HasStatus(v, "Completed") && mode != CompletedMode
    ensures b.cancel <==> mode != CompletedMode
    ensures b.reschedule <==> mode != CompletedMode
    ensures b.complete ==> b.cancel && b.reschedule
  {
    Buttons(!HasStatus(v, "Completed") && mode != CompletedMode, mode != CompletedMode, mode != CompletedMode)
  }

  /** The requests one `loadVisitors` sends: the completed list is asked for only after the scheduled one. */
  function LoadRequests(scheduled: Fetch<seq<Meeting>>): (r: seq<Op>)
    ensures |r| >= 1 && r[0] == GetAll && (GetCompleted in r <==> scheduled.Got?)
  {
    if scheduled.Got? then [GetAll, GetCompleted] else [GetAll]
  }

  class VisitorsPage {
    var visitors: seq<Meeting>
    var completedVisitors: seq<Meeting>
    var loading: bool
    var editingVisitor: Option<Meeting>
    var cancelVisitor: Option<Meeting>
    var confirmDelete: Option<Meeting>
    var search: string
    var mode: Mode
    /** The visitor-service requests the page has sent, in order. */
    var sent: seq<Op>

    constructor ()
      ensures visitors == [] && completedVisitors == [] && loading
      ensures editingVisitor == None && cancelVisitor == None && confirmDelete == None
      ensures search == "" && mode == TodayMode && sent == []
    {
      visitors, completedVisitors, loading := [], [], true;
      editingVisitor, cancelVisitor, confirmDelete := None, None, None;
      search, mode, sent := "", TodayMode, [];
    }

    /** `loadVisitors`: the scheduled list, then the completed list; nothing changes unless both arrive. */
    method LoadVisitors(today: string, scheduled: Fetch<seq<Meeting>>, completed: Fetch<seq<Meeting>>)
      modifies this`visitors, this`completedVisitors, this`loading, this`sent
      ensures !loading
      ensures sent == old(sent) + LoadRequests(scheduled)
      ensures scheduled.Got? && completed.Got? ==>
                completedVisitors == completed.value
                && visitors == LoadedList(mode, scheduled.value, completed.value, today)
      ensures scheduled.Threw? || completed.Threw? ==>
                visitors == old(visitors) && completedVisitors == old(completedVisitors)
    {
      loading := true;
      sent := sent + [GetAll];
      if scheduled.Got? {
        sent := sent + [GetCompleted];
        if completed.Got? {
          completedVisitors := completed.value;
          visitors := LoadedList(mode, scheduled.value, completed.value, today);
        }
      }
      loading := false;
    }

    /**
     * `handleComplete(id)`: nothing without a (truthy) id; otherwise the complete request, and once it
     * resolves the record leaves the list and the completed list is fetched again.
     */
    method HandleComplete(id: Option<int>, completeResolved: bool, refetch: Fetch<seq<Meeting>>)
      modifies this`visitors, this`completedVisitors, this`sent
      ensures !IsTruthyId(id) ==> visitors == old(visitors) && completedVisitors == old(completedVisitors)
                                  && sent == old(sent)
      ensures IsTruthyId(id) ==> sent == old(sent) + [Complete(id.value)] + (if completeResolved then [GetCompleted] else [])
      ensures IsTruthyId(id) && !completeResolved ==> visitors == old(visitors) && completedVisitors == old(completedVisitors)
      ensures IsTruthyId(id) && completeResolved ==>
                visitors == Filter(old(visitors), (v: Meeting) => v.id != id)
                && completedVisitors == (if refetch.Got? then refetch.value else old(completedVisitors))
    {
      if !IsTruthyId(id) {
        return;
      }
      sent := sent + [Complete(id.value)];
      if !completeResolved {
        return;
      }
      visitors := Filter(visitors, (v: Meeting) => v.id != id);
      sent := sent + [GetCompleted];
      if refetch.Got? {
        completedVisitors := refetch.value;
      }
    }

    /** The Cancel button only opens the reschedule-or-delete dialog; no status is changed. */
    method HandleCancel(v: Meeting)
      modifies this`cancelVisitor
      ensures cancelVisitor == Some(v)
    {
      cancelVisitor := Some(v);
    }

    /** The dialog's Reschedule choice: the meeting moves into the reschedule dialog. */
    method ChooseReschedule()
      modifies this`editingVisitor, this`cancelVisitor
      ensures editingVisitor == old(cancelVisitor) && cancelVisitor == None
    {
      editingVisitor := cancelVisitor;
      cancelVisitor := None;
    }

    /** The dialog's Delete choice: the meeting moves into the confirm-delete dialog. */
    method ChooseDelete()
      modifies this`confirmDelete, this`cancelVisitor
      ensures confirmDelete == old(cancelVisitor) && cancelVisitor == None
    {
      confirmDelete := cancelVisitor;
      cancelVisitor := None;
    }

    /** The dialog's Close choice. */
    method CloseCancelDialog()
      modifies this`cancelVisitor
      ensures cancelVisitor == None
    {
      cancelVisitor := None;
    }

    /** `handleConfirmDelete`: with an id, the delete request; once it resolves the dialog closes and the
        lists are loaded again. A rejected delete only toasts. */
    method HandleConfirmDelete(deleteResolved: bool, today: string,
                               scheduled: Fetch<seq<Meeting>>, completed: Fetch<seq<Meeting>>)
      modifies this`visitors, this`completedVisitors, this`loading, this`sent, this`confirmDelete
      ensures old(confirmDelete).None? || !IsTruthyId(old(confirmDelete).value.id) ==>
                sent == old(sent) && visitors == old(visitors) && completedVisitors == old(completedVisitors)
                && loading == old(loading) && confirmDelete == old(confirmDelete)
      ensures old(confirmDelete).Some? && IsTruthyId(old(confirmDelete).value.id) ==>
                sent == old(sent) + [DeleteMeeting(old(confirmDelete).value.id.value)]
                        + (if deleteResolved then LoadRequests(scheduled) else [])
      ensures old(confirmDelete).Some? && IsTruthyId(old(confirmDelete).value.id) && !deleteResolved ==>
                visitors == old(visitors) && completedVisitors == old(completedVisitors)
                && loading == old(loading) && confirmDelete == old(confirmDelete)
      ensures old(confirmDelete).Some? && IsTruthyId(old(confirmDelete).value.id) && deleteResolved ==>
                confirmDelete == None && !loading
                && (scheduled.Got? && completed.Got? ==>
                      completedVisitors == completed.value
                      && visitors == LoadedList(mode, scheduled.value, completed.value, today))
                && (scheduled.Threw? || completed.Threw? ==>
                      visitors == old(visitors) && completedVisitors == old(completedVisitors))
    {
      if confirmDelete.None? || !IsTruthyId(confirmDelete.value.id) {
        return;
      }
      sent := sent + [DeleteMeeting(confirmDelete.value.id.value)];
      if !deleteResolved {
        return;
      }
      confirmDelete := None;
      LoadVisitors(today, scheduled, completed);
    }

    /** `handleEditSave`: with an id, the update request carrying the edited meeting; once it resolves the
        dialog closes and the lists are loaded again. A rejected update only toasts. */
    method HandleEditSave(updateResolved: bool, today: string,
                          scheduled: Fetch<seq<Meeting>>, completed: Fetch<seq<Meeting>>)
      modifies this`visitors, this`completedVisitors, this`loading, this`sent, this`editingVisitor
      ensures old(editingVisitor).None? || !IsTruthyId(old(editingVisitor).value.id) ==>
                sent == old(sent) && visitors == old(visitors) && completedVisitors == old(completedVisitors)
                && loading == old(loading) && editingVisitor == old(editingVisitor)
      ensures old(editingVisitor).Some? && IsTruthyId(old(editingVisitor).value.id) ==>
                sent == old(sent) + [UpdateMeeting(old(editingVisitor).value.id.value, old(editingVisitor).value)]
                        + (if updateResolved then LoadRequests(scheduled) else [])
      ensures old(editingVisitor).Some? && IsTruthyId(old(editingVisitor).value.id) && !updateResolved ==>
                visitors == old(visitors) && completedVisitors == old(completedVisitors)
                && loading == old(loading) && editingVisitor == old(editingVisitor)
      ensures old(editingVisitor).Some? && IsTruthyId(old(editingVisitor).value.id) && updateResolved ==>
                editingVisitor == None && !loading
                && (scheduled.Got? && completed.Got? ==>
                      completedVisitors == completed.value
                      && visitors == LoadedList(mode, scheduled.value, completed.value, today))
                && (scheduled.Threw? || completed.Threw? ==>
                      visitors == old(visitors) && completedVisitors == old(completedVisitors))
    {
      if editingVisitor.None? || !IsTruthyId(editingVisitor.value.id) {
        return;
      }
      sent := sent + [UpdateMeeting(editingVisitor.value.id.value, editingVisitor.value)];
      if !updateResolved {
        return;
      }
      editingVisitor := None;
      LoadVisitors(today, scheduled, completed);
    }

    /** The cards on screen. */
    function ShownCards(): seq<Meeting>
      reads this
    {
      Shown(visitors, search)
    }
  }
}

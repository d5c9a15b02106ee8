/**
 * The criminal records page: the list fetched once, the search effect over name and crime, four
 * records a page, the add/edit modal that posts or puts a multipart body, the detail modal's update
 * (whose list entry keeps the photo it showed unless a new file was chosen), and delete with its page clamp.
 */
module CriminalRecords {
  import opened Wrappers
  import opened Text
  import opened Seqs
  import opened Paging
  import opened CriminalForm

  const RecordsPerPage := 4

  /** A request to the criminals API: the JSON part and the optional photo file travel together. */
  datatype RecordsRequest =
    | Post(body: CriminalBody, photoFile: Option<string>)
    | Put(id: Option<int>, body: CriminalBody, photoFile: Option<string>)
    | Delete(deleteId: int)

  /** How a save ends: the saved record, a non-OK response with its text, or a thrown error's message. */
  datatype SaveOutcome = Saved(record: CriminalFormData) | NotOk(responseText: string) | Failed(message: string)

  /** How a delete ends. */
  datatype DeleteOutcome = Deleted | DeleteNotOk | DeleteFailed(message: string)

  /** The message of the error a failed save throws: the response text, or the fallback when it is empty. */
  function SaveError(outcome: SaveOutcome, fallback: string): (m: string)
    requires !outcome.Saved?
    ensures outcome.Failed? ==> m == outcome.message
    ensures outcome.NotOk? ==> m == (if outcome.responseText == "" then fallback else outcome.responseText)
  {
    match outcome
    case NotOk(text) => if text == "" then fallback else text
    case Failed(message) => message
  }

  /** `criminal.age || ""`: zero and NaN are falsy and become blank. */
  function TruthyAge(a: Age): (r: Age)
    ensures r == Blank || r == a
    ensures r == Blank <==> a == Blank || a == Num(NaN) || a == Num(Finite(0.0))
  {
    match a
    case Num(Finite(v)) => if v == 0.0 then Blank else a
    case _ => Blank
  }

  /** `handleEdit`'s form: the record with a truthy age, no photo file, and as preview the stored photo URL
      or else the record's own non-empty preview. */
  function EditForm(c: CriminalFormData): (f: CriminalFormData)
    ensures f.id == c.id && f.name == c.name && f.crime == c.crime && f.threat == c.threat
    ensures f.lastSeen == c.lastSeen && f.status == c.status && f.record == c.record
    ensures f.age == TruthyAge(c.age) && f.photo == NoPhoto
    ensures c.photo.Url? ==> f.preview == Some(c.photo.url)
    ensures !c.photo.Url? ==> f.preview == (if c.preview == Some("") then None else c.preview)
  {
    c.(age := TruthyAge(c.age), photo := NoPhoto,
       preview := if c.photo.Url? then Some(c.photo.url) else if c.preview == Some("") then None else c.preview)
  }

  /** Editing a record and submitting without a new photo sends no file, and the JSON part has no photo
      field either, so the backend stores the record without its photo. */
  lemma EditWithoutNewFileSendsNoPhoto(c: CriminalFormData)
    ensures PhotoPart(EditForm(c)) == None
    ensures BodyOf(EditForm(c)).name == c.name && BodyOf(EditForm(c)).crime == c.crime
  {
  }

  /** The updated record as stored in the list: the server's, but keeping the photo the detail modal held
      unless a new file was chosen. */
  function RetainPhoto(updated: CriminalFormData, selected: CriminalFormData): (r: CriminalFormData)
    ensures selected.photo.NewFile? ==> r == updated
    ensures !selected.photo.NewFile? ==> r == updated.(photo := selected.photo)
    ensures r.id == updated.id
  {
    if selected.photo.NewFile? then updated else updated.(photo := selected.photo)
  }

  /** `Math.ceil((n - 1) / 4) || 1`: the page a delete clamps to, from the length before the delete. */
  function PageAfterDelete(n: nat): (r: int)
    ensures r >= 1
    ensures n >= 1 ==> r == PageCountOr1(n - 1, RecordsPerPage)
    ensures n == 0 ==> r == 1
  {
    var c := CeilDiv(n - 1, RecordsPerPage);
    if c == 0 then 1 else c
  }

  /** The clamp is the page count of the list one record shorter, so the last page never lies past it. */
  lemma PageAfterDeleteIsLastPage(n: nat)
    requires n >= 2
    ensures (PageAfterDelete(n) - 1) * RecordsPerPage < n - 1 <= PageAfterDelete(n) * RecordsPerPage
  {
  }

  class RecordsPage {
    var suspects: seq<CriminalFormData>
    var filteredSuspects: seq<CriminalFormData>
    var loading: bool
    var showAddModal: bool
    var editingCriminal: Option<CriminalFormData>
    var selectedCriminal: Option<CriminalFormData>
    var alertMessage: Option<string>
    var searchQuery: string
    var currentPage: int
    var newCriminal: CriminalFormData
    /** The requests sent to the criminals API, in order. */
    var sent: seq<RecordsRequest>
    /** The `window.alert` messages shown, in order. */
    var alerts: seq<string>

    constructor ()
      ensures suspects == [] && filteredSuspects == [] && loading && !showAddModal
      ensures editingCriminal == None && selectedCriminal == None && alertMessage == None
      ensures searchQuery == "" && currentPage == 1 && newCriminal == Defaults() && sent == [] && alerts == []
    {
      suspects, filteredSuspects, loading, showAddModal := [], [], true, false;
      editingCriminal, selectedCriminal, alertMessage := None, None, None;
      searchQuery, currentPage, newCriminal, sent, alerts := "", 1, Defaults(), [], [];
    }

    /** `Math.ceil(filteredSuspects.length / 4) || 1`. */
    function TotalPages(): (n: int)
      reads this
      ensures n >= 1
    {
      PageCountOr1(|filteredSuspects|, RecordsPerPage)
    }

    /** The records of the current page, at most four. */
    function CurrentRecords(): (r: seq<CriminalFormData>)
      reads this
      ensures |r| <= RecordsPerPage
    {
      PageSliceBounded(filteredSuspects, currentPage, RecordsPerPage);
      PageSlice(filteredSuspects, currentPage, RecordsPerPage)
    }

    /** The mount effect: the list, when the request resolves; the page leaves its loading state either way. */
    method FetchData(outcome: Fetch<seq<CriminalFormData>>)
      modifies this`suspects, this`loading
      ensures suspects == (if outcome.Got? then outcome.value else old(suspects)) && !loading
    {
      if outcome.Got? {
        suspects := outcome.value;
      }
      loading := false;
    }

    /** The effect that follows every change of the query or the list: refilter and go back to page 1. */
    method SearchEffect()
      modifies this`filteredSuspects, this`currentPage
      ensures filteredSuspects == SearchCriminals(suspects, searchQuery) && currentPage == 1
    {
      if searchQuery == "" {
        filteredSuspects := suspects;
      } else {
        var query := searchQuery;
        filteredSuspects := Filter(suspects, (c: CriminalFormData) => MatchesQuery(c, query));
      }
      currentPage := 1;
    }

    method SetSearchQuery(q: string)
      modifies this`searchQuery
      ensures searchQuery == q
    {
      searchQuery := q;
    }

    method HandleChange(name: string, value: string, toNumber: string -> JsNumber)
      modifies this`newCriminal
      ensures newCriminal == ChangeField(old(newCriminal), name, value, toNumber)
    {
      newCriminal := ChangeField(newCriminal, name, value, toNumber);
    }

    /** A photo chosen in one of the modals; `dataUrl` is what the file reader produced. With no file
        nothing changes. */
    method HandlePhotoChange(file: Option<string>, dataUrl: string, isEditing: bool)
      modifies this`selectedCriminal, this`newCriminal
      ensures file.None? ==> selectedCriminal == old(selectedCriminal) && newCriminal == old(newCriminal)
      ensures file.Some? && isEditing && old(selectedCriminal).Some? ==>
                selectedCriminal == Some(old(selectedCriminal).value.(photo := NewFile(file.value), preview := Some(dataUrl)))
                && newCriminal == old(newCriminal)
      ensures file.Some? && !(isEditing && old(selectedCriminal).Some?) ==>
                newCriminal == old(newCriminal).(photo := NewFile(file.value), preview := Some(dataUrl))
                && selectedCriminal == old(selectedCriminal)
    {
      if file.None? {
        return;
      }
      if isEditing && selectedCriminal.Some? {
        selectedCriminal := Some(selectedCriminal.value.(photo := NewFile(file.value), preview := Some(dataUrl)));
      } else {
        newCriminal := newCriminal.(photo := NewFile(file.value), preview := Some(dataUrl));
      }
    }

    /** "Add Criminal" opens the modal on whatever the form holds. */
    method OpenAdd()
      modifies this`showAddModal
      ensures showAddModal
    {
      showAddModal := true;
    }

    /** The modal's Cancel: it closes and forgets the record being edited, but not the form's contents. */
    method CancelModal()
      modifies this`showAddModal, this`editingCriminal
      ensures !showAddModal && editingCriminal == None
    {
      showAddModal := false;
      editingCriminal := None;
    }

    /** `handleEdit`: the modal opens on the record, its form prepared by `EditForm`. */
    method HandleEdit(c: CriminalFormData)
      modifies this`editingCriminal, this`newCriminal, this`showAddModal
      ensures editingCriminal == Some(c) && newCriminal == EditForm(c) && showAddModal
    {
      editingCriminal := Some(c);
      newCriminal := EditForm(c);
      showAddModal := true;
    }

    /**
     * `handleAddOrEditCriminal`: refused with an alert when the name or crime is missing; otherwise a PUT to
     * the edited record's id or a POST, and on success the list gains or replaces the saved record and the
     * modal closes on a fresh form. On failure only an alert is shown.
     */
    method HandleAddOrEdit(outcome: SaveOutcome)
      modifies this`sent, this`alerts, this`suspects, this`showAddModal, this`editingCriminal, this`newCriminal
      ensures MissingRequired(old(newCriminal)) ==>
                alerts == old(alerts) + ["Name and Crime are required!"] && sent == old(sent)
                && suspects == old(suspects) && newCriminal == old(newCriminal)
                && showAddModal == old(showAddModal) && editingCriminal == old(editingCriminal)
      ensures !MissingRequired(old(newCriminal)) ==>
                sent == old(sent) + [if old(editingCriminal).Some?
                                     then Put(old(editingCriminal).value.id, BodyOf(old(newCriminal)), PhotoPart(old(newCriminal)))
                                     else Post(BodyOf(old(newCriminal)), PhotoPart(old(newCriminal)))]
      ensures !MissingRequired(old(newCriminal)) && outcome.Saved? ==>
                suspects == (if old(editingCriminal).Some? then ReplaceById(old(suspects), outcome.record)
                             else old(suspects) + [outcome.record])
                && !showAddModal && editingCriminal == None && newCriminal == Defaults() && alerts == old(alerts)
      ensures !MissingRequired(old(newCriminal)) && !outcome.Saved? ==>
                alerts == old(alerts) + ["Error: " + SaveError(outcome, "Failed to add/edit criminal")]
                && suspects == old(suspects) && newCriminal == old(newCriminal)
                && showAddModal == old(showAddModal) && editingCriminal == old(editingCriminal)
    {
      if newCriminal.name == "" || newCriminal.crime == "" {
        alerts := alerts + ["Name and Crime are required!"];
        return;
      }
      var body := BodyOf(newCriminal);
      var file := PhotoPart(newCriminal);
      if editingCriminal.Some? {
        sent := sent + [Put(editingCriminal.value.id, body, file)];
      } else {
        sent := sent + [Post(body, file)];
      }
      if !outcome.Saved? {
        alerts := alerts + ["Error: " + SaveError(outcome, "Failed to add/edit criminal")];
        return;
      }
      if editingCriminal.Some? {
        suspects := ReplaceById(suspects, outcome.record);
      } else {
        suspects := suspects + [outcome.record];
      }
      showAddModal := false;
      editingCriminal := None;
      newCriminal := Defaults();
    }

    /**
     * `handleDelete(id)`: after the user confirms, the DELETE; on success the record leaves the list and the
     * page is clamped by the filtered list's length before the delete. (The search effect that follows the
     * list change then sets the page to 1.)
     */
    method HandleDelete(id: int, confirmed: bool, outcome: DeleteOutcome)
      modifies this`sent, this`suspects, this`alertMessage, this`currentPage
      ensures !confirmed ==> sent == old(sent) && suspects == old(suspects) && alertMessage == old(alertMessage)
                             && currentPage == old(currentPage)
      ensures confirmed ==> sent == old(sent) + [Delete(id)]
      ensures confirmed && outcome.Deleted? ==>
                suspects == RemoveById(old(suspects), id)
                && alertMessage == Some("Criminal deleted successfully!")
                && currentPage == (if old(currentPage) < PageAfterDelete(|filteredSuspects|) then old(currentPage)
                                   else PageAfterDelete(|filteredSuspects|))
      ensures confirmed && outcome.DeleteNotOk? ==>
                suspects == old(suspects) && alertMessage == Some("Error deleting criminal: Failed to delete criminal")
      ensures confirmed && outcome.DeleteFailed? ==>
                suspects == old(suspects) && alertMessage == Some("Error deleting criminal: " + outcome.message)
      ensures !outcome.Deleted? ==> currentPage == old(currentPage)
    {
      if !confirmed {
        return;
      }
      sent := sent + [Delete(id)];
      match outcome {
        case Deleted =>
          suspects := RemoveById(suspects, id);
          alertMessage := Some("Criminal deleted successfully!");
          var clamp := PageAfterDelete(|filteredSuspects|);
          if clamp <= currentPage {
            currentPage := clamp;
          }
        case DeleteNotOk =>
          alertMessage := Some("Error deleting criminal: Failed to delete criminal");
        case DeleteFailed(message) =>
          alertMessage := Some("Error deleting criminal: " + message);
      }
    }

    /** A card click opens the detail modal on that record. */
    method Select(c: CriminalFormData)
      modifies this`selectedCriminal
      ensures selectedCriminal == Some(c)
    {
      selectedCriminal := Some(c);
    }

    /** `handleDetailChange`: a field of the detail modal's record, if one is open. */
    method HandleDetailChange(name: string, value: string, toNumber: string -> JsNumber)
      modifies this`selectedCriminal
      ensures selectedCriminal == (if old(selectedCriminal).Some?
                                   then Some(ChangeField(old(selectedCriminal).value, name, value, toNumber))
                                   else None)
    {
      if selectedCriminal.Some? {
        selectedCriminal := Some(ChangeField(selectedCriminal.value, name, value, toNumber));
      }
    }

    /**
     * `handleUpdateCriminal`: with a record in the detail modal, a PUT to its id; on success the list takes
     * the server's record, keeping the modal's photo unless a new file was sent, and the modal closes.
     */
    method HandleUpdateCriminal(outcome: SaveOutcome)
      modifies this`sent, this`suspects, this`selectedCriminal, this`alertMessage, this`showAddModal
      ensures old(selectedCriminal).None? ==>
                sent == old(sent) && suspects == old(suspects) && alertMessage == old(alertMessage)
                && selectedCriminal == None && showAddModal == old(showAddModal)
      ensures old(selectedCriminal).Some? ==>
                var c := old(selectedCriminal).value;
                sent == old(sent) + [Put(c.id, BodyOf(c), PhotoPart(c))]
      ensures old(selectedCriminal).Some? && outcome.Saved? ==>
                suspects == ReplaceById(old(suspects), RetainPhoto(outcome.record, old(selectedCriminal).value))
                && selectedCriminal == None && alertMessage == Some("Criminal updated successfully!") && !showAddModal
      ensures old(selectedCriminal).Some? && !outcome.Saved? ==>
                suspects == old(suspects) && selectedCriminal == old(selectedCriminal) && showAddModal == old(showAddModal)
                && alertMessage == Some("Error updating criminal: " + SaveError(outcome, "Failed to update"))
    {
      if selectedCriminal.None? {
        return;
      }
      var c := selectedCriminal.value;
      sent := sent + [Put(c.id, BodyOf(c), PhotoPart(c))];
      if !outcome.Saved? {
        alertMessage := Some("Error updating criminal: " + SaveError(outcome, "Failed to update"));
        return;
      }
      var updated := outcome.record;
      if !c.photo.NewFile? {
        updated := updated.(photo := c.photo);
      }
      suspects := ReplaceById(suspects, updated);
      selectedCriminal := None;
      alertMessage := Some("Criminal updated successfully!");
      showAddModal := false;
    }

    /** `handleDetailDelete`: the delete, then the detail modal closes whatever the delete did. */
    method HandleDetailDelete(id: int, confirmed: bool, outcome: DeleteOutcome)
      modifies this`sent, this`suspects, this`alertMessage, this`currentPage, this`selectedCriminal
      ensures selectedCriminal == None
      ensures !confirmed ==> sent == old(sent) && suspects == old(suspects) && alertMessage == old(alertMessage)
                             && currentPage == old(currentPage)
      ensures confirmed ==> sent == old(sent) + [Delete(id)]
      ensures confirmed && outcome.Deleted? ==>
                suspects == RemoveById(old(suspects), id)
                && alertMessage == Some("Criminal deleted successfully!")
                && currentPage == (if old(currentPage) < PageAfterDelete(|filteredSuspects|) then old(currentPage)
                                   else PageAfterDelete(|filteredSuspects|))
      ensures confirmed && outcome.DeleteNotOk? ==>
                suspects == old(suspects) && alertMessage == Some("Error deleting criminal: Failed to delete criminal")
      ensures confirmed && outcome.DeleteFailed? ==>
                suspects == old(suspects) && alertMessage == Some("Error deleting criminal: " + outcome.message)
      ensures !outcome.Deleted? ==> suspects == old(suspects) && currentPage == old(currentPage)
    {
      HandleDelete(id, confirmed, outcome);
      selectedCriminal := None;
    }

    /** "Prev", enabled only off the first page. */
    method Prev()
      requires currentPage != 1
      modifies this`currentPage
      ensures currentPage == old(currentPage) - 1
    {
      currentPage := currentPage - 1;
    }

    /** "Next", enabled only off the last page. */
    method Next()
      requires currentPage != TotalPages()
      modifies this`currentPage
      ensures currentPage == old(currentPage) + 1
    {
      currentPage := currentPage + 1;
    }
  }
}

/**
 * The criminal record as the client edits it (`CriminalFormData`), and the add/edit form component:
 * its initial state (defaults overridden by the record being edited), field changes with the age
 * conversion, and the submit guard.
 */
module CriminalForm {
  import opened Wrappers
  import opened Text
  import opened Seqs

  /** A JavaScript number as `Number(text)` yields it: a finite value or NaN. */
  datatype JsNumber = Finite(value: real) | NaN

  /** The age field: `""` while blank, else a number. */
  datatype Age = Blank | Num(n: JsNumber)

  /** The photo field: nothing, the URL the backend stored, or a file just chosen in the browser. */
  datatype Photo = NoPhoto | Url(url: string) | NewFile(fileName: string)

  datatype CriminalFormData = CriminalFormData(
    id: Option<int>,
    name: string,
    age: Age,
    crime: string,
    threat: string,
    lastSeen: string,
    status: string,
    record: string,
    photo: Photo,
    preview: Option<string>)

  /** The empty form: threat "Low", status "Under Investigation", everything else empty. */
  function Defaults(): (f: CriminalFormData)
    ensures f.id == None && f.name == "" && f.age == Blank && f.crime == "" && f.threat == "Low"
    ensures f.lastSeen == "" && f.status == "Under Investigation" && f.record == ""
    ensures f.photo == NoPhoto && f.preview == None
  {
    CriminalFormData(None, "", Blank, "", "Low", "", "Under Investigation", "", NoPhoto, None)
  }

  /** The properties an object spread over the defaults may carry; an absent one is None. */
  datatype CriminalPatch = CriminalPatch(
    id: Option<int>,
    name: Option<string>,
    age: Option<Age>,
    crime: Option<string>,
    threat: Option<string>,
    lastSeen: Option<string>,
    status: Option<string>,
    record: Option<string>,
    photo: Option<Photo>,
    preview: Option<Option<string>>)

  /** A whole record, every property present. */
  function PatchOf(c: CriminalFormData): CriminalPatch {
    CriminalPatch(c.id, Some(c.name), Some(c.age), Some(c.crime), Some(c.threat), Some(c.lastSeen),
                  Some(c.status), Some(c.record), Some(c.photo), Some(c.preview))
  }

  /** `{ ...base, ...patch }`. */
  function Spread(base: CriminalFormData, p: CriminalPatch): CriminalFormData {
    CriminalFormData(
      if p.id.Some? then p.id else base.id,
      p.name.GetOr(base.name), p.age.GetOr(base.age), p.crime.GetOr(base.crime),
      p.threat.GetOr(base.threat), p.lastSeen.GetOr(base.lastSeen), p.status.GetOr(base.status),
      p.record.GetOr(base.record), p.photo.GetOr(base.photo), p.preview.GetOr(base.preview))
  }

  /** The initial form: the defaults, overridden property by property by the record passed in, if any. */
  function InitialForm(criminal: Option<CriminalPatch>): (f: CriminalFormData)
    ensures criminal.None? ==> f == Defaults()
    ensures criminal.Some? ==> var p := criminal.value;
              f.name == p.name.GetOr("") && f.crime == p.crime.GetOr("") && f.threat == p.threat.GetOr("Low")
              && f.status == p.status.GetOr("Under Investigation") && f.age == p.age.GetOr(Blank)
              && f.id == p.id && f.photo == p.photo.GetOr(NoPhoto)
              && f.lastSeen == p.lastSeen.GetOr("") && f.record == p.record.GetOr("")
              && f.preview == p.preview.GetOr(None)
  {
    match criminal
    case None => Defaults()
    case Some(p) => Spread(Defaults(), p)
  }

  /** Editing a whole record starts from exactly that record. */
  lemma InitialFormOfRecord(c: CriminalFormData)
    ensures InitialForm(Some(PatchOf(c))) == c
  {
  }

  /** The name/value change handler: "age" goes through `Number` unless blank; other fields are stored
      as typed. A name that is none of the form's text fields leaves the modelled fields as they were. */
  function ChangeField(form: CriminalFormData, name: string, value: string, toNumber: string -> JsNumber): (r: CriminalFormData)
    ensures name == "age" ==> r == form.(age := if value == "" then Blank else Num(toNumber(value)))
    ensures name == "name" ==> r == form.(name := value)
    ensures name == "crime" ==> r == form.(crime := value)
    ensures name == "threat" ==> r == form.(threat := value)
    ensures name == "lastSeen" ==> r == form.(lastSeen := value)
    ensures name == "status" ==> r == form.(status := value)
    ensures name == "record" ==> r == form.(record := value)
    ensures name !in {"age", "name", "crime", "threat", "lastSeen", "status", "record"} ==> r == form
    ensures name != "age" ==> r.age == form.age
    ensures r.id == form.id && r.photo == form.photo && r.preview == form.preview
  {
    if name == "age" then form.(age := if value == "" then Blank else Num(toNumber(value)))
    else if name == "name" then form.(name := value)
    else if name == "crime" then form.(crime := value)
    else if name == "threat" then form.(threat := value)
    else if name == "lastSeen" then form.(lastSeen := value)
    else if name == "status" then form.(status := value)
    else if name == "record" then form.(record := value)
    else form
  }

  /** `!name || !crime`: the guard that stops a submit with an alert. */
  predicate MissingRequired(form: CriminalFormData) {
    form.name == "" || form.crime == ""
  }

  /** The JSON part `criminal` of the multipart body: the record's own fields, without id, photo or preview. */
  datatype CriminalBody = CriminalBody(name: string, age: Age, crime: string, threat: string,
                                       lastSeen: string, status: string, record: string)

  function BodyOf(c: CriminalFormData): (b: CriminalBody)
    ensures b.name == c.name && b.age == c.age && b.crime == c.crime && b.threat == c.threat
    ensures b.lastSeen == c.lastSeen && b.status == c.status && b.record == c.record
  {
    CriminalBody(c.name, c.age, c.crime, c.threat, c.lastSeen, c.status, c.record)
  }

  /** The `photoFile` part: present only when the photo is a file chosen in the browser. */
  function PhotoPart(c: CriminalFormData): (f: Option<string>)
    ensures f.Some? <==> c.photo.NewFile?
    ensures f.Some? ==> f.value == c.photo.fileName
  {
    if c.photo.NewFile? then Some(c.photo.fileName) else None
  }

  // ------------------------------------------------- list maintenance shared by the two criminal pages

  /** `list.map(c => c.id === saved.id ? saved : c)`. */
  function ReplaceById(s: seq<CriminalFormData>, saved: CriminalFormData): (r: seq<CriminalFormData>)
    ensures |r| == |s|
    ensures forall i :: 0 <= i < |s| ==> r[i] == if s[i].id == saved.id then saved else s[i]
  {
    seq(|s|, i requires 0 <= i < |s| => if s[i].id == saved.id then saved else s[i])
  }

  /** No two records of the list share an id. */
  predicate UniqueIds(s: seq<CriminalFormData>) {
    forall i, j :: 0 <= i < j < |s| && s[i].id.Some? ==> s[i].id != s[j].id
  }

  /** When ids are unique, replacing by id changes exactly the one record with the saved id. */
  lemma ReplaceByIdIsUpdate(s: seq<CriminalFormData>, saved: CriminalFormData, k: nat)
    requires UniqueIds(s) && k < |s| && saved.id.Some? && s[k].id == saved.id
    ensures ReplaceById(s, saved) == s[k := saved]
  {
    forall i | 0 <= i < |s| && i != k ensures s[i].id != saved.id {
      if i < k { assert s[i].id.Some? ==> s[i].id != s[k].id; } else { assert s[k].id != s[i].id; }
    }
  }

  /** A saved record whose id is in no list element leaves the list as it was. */
  lemma ReplaceByUnknownIdKeepsList(s: seq<CriminalFormData>, saved: CriminalFormData)
    requires forall i :: 0 <= i < |s| ==> s[i].id != saved.id
    ensures ReplaceById(s, saved) == s
  {
  }

  /** `list.filter(c => c.id !== id)`. */
  function RemoveById(s: seq<CriminalFormData>, id: int): (r: seq<CriminalFormData>)
    ensures forall i :: 0 <= i < |r| ==> r[i].id != Some(id)
    ensures forall c: CriminalFormData :: c in r <==> c in s && c.id != Some(id)
    ensures forall c: CriminalFormData :: c.id != Some(id) ==> multiset(r)[c] == multiset(s)[c]
  {
    Filter(s, (c: CriminalFormData) => c.id != Some(id))
  }

  /** Removing an id that no record carries keeps the list, in order. */
  lemma RemoveUnknownIdKeepsList(s: seq<CriminalFormData>, id: int)
    requires forall i :: 0 <= i < |s| ==> s[i].id != Some(id)
    ensures RemoveById(s, id) == s
  {
    FilterKeepsAll(s, (c: CriminalFormData) => c.id != Some(id));
  }

  /** The search effect: an empty query keeps the whole list, otherwise the records whose lower-cased
      name or crime contains the lower-cased query. */
  predicate MatchesQuery(c: CriminalFormData, query: string) {
    Contains(ToLower(c.name), ToLower(query)) || Contains(ToLower(c.crime), ToLower(query))
  }

  function SearchCriminals(s: seq<CriminalFormData>, query: string): (r: seq<CriminalFormData>)
    ensures query == "" ==> r == s
    ensures query != "" ==> forall c :: c in r <==> c in s && MatchesQuery(c, query)
    ensures |r| <= |s|
  {
    if query == "" then s else Filter(s, (c: CriminalFormData) => MatchesQuery(c, query))
  }

  /** The form component: its state and the calls it has made to the parent's `onSave`. */
  class CriminalFormState {
    var form: CriminalFormData
    var saved: seq<CriminalFormData>
    var alerts: nat

    constructor (criminal: Option<CriminalPatch>)
      ensures form == InitialForm(criminal) && saved == [] && alerts == 0
    {
      form := InitialForm(criminal);
      saved := [];
      alerts := 0;
    }

    method HandleChange(name: string, value: string, toNumber: string -> JsNumber)
      modifies this
      ensures form == ChangeField(old(form), name, value, toNumber)
      ensures saved == old(saved) && alerts == old(alerts)
    {
      form := ChangeField(form, name, value, toNumber);
    }

    /** `handlePhotoChange`: without a chosen file nothing changes; otherwise, once the reader has the
        data URL, the file becomes the photo and the URL the preview. */
    method HandlePhotoChange(file: Option<string>, dataUrl: string)
      modifies this
      ensures file.None? ==> form == old(form)
      ensures file.Some? ==> form == old(form).(photo := NewFile(file.value), preview := Some(dataUrl))
      ensures saved == old(saved) && alerts == old(alerts)
    {
      if file.None? {
        return;
      }
      form := form.(photo := NewFile(file.value), preview := Some(dataUrl));
    }

    /** `handleSubmit`: an alert when the name or crime is missing, otherwise `onSave(form)` unchanged. */
    method HandleSubmit()
      modifies this
      ensures form == old(form)
      ensures MissingRequired(form) ==> saved == old(saved) && alerts == old(alerts) + 1
      ensures !MissingRequired(form) ==> saved == old(saved) + [form] && alerts == old(alerts)
    {
      if form.name == "" || form.crime == "" {
        alerts := alerts + 1;
        return;
      }
      saved := saved + [form];
    }
  }
}

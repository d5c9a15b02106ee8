/**
 * The backend's criminal-record service: a table of criminals keyed by a generated id, a photo
 * upload to the external image host, and an existence-checked delete.
 */
module CriminalService {
  import opened Wrappers
  import opened Text

  /** A row of the criminals table; `photo` is the image URL (or whatever text the client sent). */
  datatype Criminal = Criminal(
    id: Option<int>,
    name: string,
    age: int,
    crime: string,
    threat: string,
    lastSeen: string,
    status: string,
    record: string,
    photo: Option<string>)

  /** The table and the next key it generates. */
  datatype Store = Store(criminals: map<int, Criminal>, nextId: int)

  predicate StoreValid(s: Store) {
    forall k :: k in s.criminals ==> s.criminals[k].id == Some(k) && k < s.nextId
  }

  /** What the image host does with an upload: it answers the secure URL, or the call fails with an
      `IOException`. */
  datatype Upload = Uploaded(secureUrl: string) | UploadFailed

  /** An exception raised by the service, or a value. */
  datatype Result<+T> = Success(value: T) | Failure(message: string)

  const UploadFailureMessage := "IOException"

  /** `photo != null && !photo.isEmpty()`: a file part with at least one byte. */
  predicate HasContent(photo: Option<seq<bv8>>) {
    photo.Some? && |photo.value| > 0
  }

  /** `uploadPhoto(file)`: null for a missing or empty file, without calling the host; otherwise the
      URL the host answers, or its failure. */
  function PhotoUrl(file: Option<seq<bv8>>, upload: Upload): (r: Result<Option<string>>)
    ensures !HasContent(file) ==> r == Success(None)
    ensures HasContent(file) && upload.Uploaded? ==> r == Success(Some(upload.secureUrl))
    ensures r.Failure? <==> HasContent(file) && upload.UploadFailed?
  {
    if !HasContent(file) then Success(None)
    else match upload
      case Uploaded(url) => Success(Some(url))
      case UploadFailed => Failure(UploadFailureMessage)
  }

  /** The key `save` writes a criminal under: its own id when that row exists, else a new key. */
  function SaveKey(s: Store, c: Criminal): int {
    if c.id.Some? && c.id.value in s.criminals then c.id.value else s.nextId
  }

  datatype Saved = Saved(store: Store, criminal: Criminal)

  /** `repository.save(c)`: an existing row is overwritten, anything else becomes a row with a new key. */
  function Save(s: Store, c: Criminal): (r: Saved)
    ensures r.criminal == c.(id := Some(SaveKey(s, c)))
    ensures r.store.criminals == s.criminals[SaveKey(s, c) := r.criminal]
    ensures r.store.nextId == if SaveKey(s, c) == s.nextId then s.nextId + 1 else s.nextId
    ensures StoreValid(s) ==> StoreValid(r.store)
  {
    var k := SaveKey(s, c);
    var saved := c.(id := Some(k));
    if k == s.nextId then Saved(Store(s.criminals[k := saved], k + 1), saved)
    else Saved(s.(criminals := s.criminals[k := saved]), saved)
  }

  /** `addCriminal(criminal, photo)`: a file with content replaces the photo by the uploaded URL
      before the save; without one the photo field is saved as it came. A failed upload saves nothing. */
  function Add(s: Store, c: Criminal, file: Option<seq<bv8>>, upload: Upload): (r: Result<Saved>)
    ensures !HasContent(file) ==> r == Success(Save(s, c)) && r.value.criminal.photo == c.photo
    ensures HasContent(file) && upload.Uploaded? ==>
              r == Success(Save(s, c.(photo := Some(upload.secureUrl)))) &&
              r.value.criminal.photo == Some(upload.secureUrl)
    ensures r.Failure? <==> HasContent(file) && upload.UploadFailed?
    ensures r.Success? ==> r.value.store.criminals[r.value.criminal.id.value] == r.value.criminal
    ensures r.Success? && StoreValid(s) ==> StoreValid(r.value.store)
  {
    match PhotoUrl(file, upload)
    case Failure(msg) => Failure(msg)
    case Success(url) =>
      var c' := if url.Some? then c.(photo := url) else c;
      Success(Save(s, c'))
  }

  function NotFoundMessage(id: int): string {
    "Criminal not found with ID: " + IntToString(id)
  }

  /** `deleteCriminal(id)`: an unknown id throws and changes nothing; a known one removes exactly that row. */
  function Remove(s: Store, id: int): (r: Result<Store>)
    ensures r.Failure? <==> id !in s.criminals
    ensures r.Failure? ==> r.message == NotFoundMessage(id)
    ensures r.Success? ==> r.value.criminals == s.criminals - {id} && |r.value.criminals| == |s.criminals| - 1
    ensures r.Success? && StoreValid(s) ==> StoreValid(r.value)
  {
    if id !in s.criminals then Failure(NotFoundMessage(id))
    else Success(s.(criminals := s.criminals - {id}))
  }

  /** A record added without an id and then deleted by the id it was given leaves the table as before. */
  lemma AddThenRemoveRestores(s: Store, c: Criminal, file: Option<seq<bv8>>, upload: Upload)
    requires StoreValid(s) && c.id.None?
    requires Add(s, c, file, upload).Success?
    ensures var a := Add(s, c, file, upload).value;
            a.criminal.id == Some(s.nextId) &&
            Remove(a.store, s.nextId) == Success(Store(s.criminals, s.nextId + 1))
  {
    var a := Add(s, c, file, upload).value;
    assert s.nextId !in s.criminals;
    assert a.store.criminals - {s.nextId} == s.criminals;
  }

  /** An existing id is overwritten in place: every other row is kept and the row count is unchanged. */
  lemma SaveExistingOverwrites(s: Store, c: Criminal)
    requires StoreValid(s) && c.id.Some? && c.id.value in s.criminals
    ensures var r := Save(s, c);
            r.criminal == c && r.store.criminals.Keys == s.criminals.Keys && r.store.nextId == s.nextId &&
            forall k :: k in s.criminals && k != c.id.value ==> r.store.criminals[k] == s.criminals[k]
  {
    assert s.criminals[c.id.value := c].Keys == s.criminals.Keys;
  }

  /** The service with its repository; `uploads` records the files sent to the image host. */
  class CriminalStore {
    var criminals: map<int, Criminal>
    var nextId: int
    var uploads: seq<seq<bv8>>

    function State(): Store
      reads this
    {
      Store(criminals, nextId)
    }

    predicate Valid()
      reads this
    {
      StoreValid(State())
    }

    constructor ()
      ensures State() == Store(map[], 1) && uploads == [] && Valid()
    {
      criminals := map[];
      nextId := 1;
      uploads := [];
    }

    /** `getAll`: every row of the table. */
    function GetAll(): (r: set<Criminal>)
      reads this
      ensures forall k :: k in criminals ==> criminals[k] in r
      ensures Valid() ==> forall c :: c in r ==> c.id.Some? && c.id.value in criminals && criminals[c.id.value] == c
    {
      set k | k in criminals :: criminals[k]
    }

    method UploadPhoto(file: Option<seq<bv8>>, upload: Upload) returns (r: Result<Option<string>>)
      modifies this`uploads
      ensures r == PhotoUrl(file, upload)
      ensures HasContent(file) ==> uploads == old(uploads) + [file.value]
      ensures !HasContent(file) ==> uploads == old(uploads)
    {
      if file.None? || |file.value| == 0 {
        return Success(None);
      }
      uploads := uploads + [file.value];
      match upload
      case Uploaded(url) => r := Success(Some(url));
      case UploadFailed => r := Failure(UploadFailureMessage);
    }

    method AddCriminal(criminal: Criminal, photo: Option<seq<bv8>>, upload: Upload) returns (r: Result<Criminal>)
      requires Valid()
      modifies this
      ensures Valid()
      ensures var a := Add(old(State()), criminal, photo, upload);
              (a.Failure? ==> r == Failure(a.message) && State() == old(State())) &&
              (a.Success? ==> r == Success(a.value.criminal) && State() == a.value.store)
      ensures HasContent(photo) ==> uploads == old(uploads) + [photo.value]
      ensures !HasContent(photo) ==> uploads == old(uploads)
    {
      var c := criminal;
      if photo.Some? && |photo.value| > 0 {
        var url := UploadPhoto(photo, upload);
        if url.Failure? {
          return Failure(url.message);
        }
        c := c.(photo := url.value);
      }
      var k := if c.id.Some? && c.id.value in criminals then c.id.value else nextId;
      c := c.(id := Some(k));
      criminals := criminals[k := c];
      if k == nextId {
        nextId := k + 1;
      }
      r := Success(c);
    }

    method DeleteCriminal(id: int) returns (error: Option<string>)
      requires Valid()
      modifies this`criminals
      ensures Valid()
      ensures var d := Remove(old(State()), id);
              (d.Failure? ==> error == Some(d.message) && State() == old(State())) &&
              (d.Success? ==> error == None && State() == d.value)
    {
      if id !in criminals {
        return Some(NotFoundMessage(id));
      }
      criminals := criminals - {id};
      error := None;
    }
  }
}

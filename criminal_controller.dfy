/**
 * The REST controller under `/api/criminals`. Add and update both go through the service's
 * `addCriminal`; update first overwrites the body's id with the path id.
 */
module CriminalController {
  import opened Wrappers
  import opened CriminalService

  /** The answer: 200 with a criminal or the list, 204 with no body, or 500 for an exception. */
  datatype Reply = Ok(criminal: Criminal) | Listed(criminals: set<Criminal>) | NoContent | ServerError(message: string)

  function HttpStatus(r: Reply): (code: int)
    ensures code == 204 <==> r.NoContent?
    ensures code == 500 <==> r.ServerError?
    ensures code == 200 <==> r.Ok? || r.Listed?
  {
    match r
    case Ok(_) => 200
    case Listed(_) => 200
    case NoContent => 204
    case ServerError(_) => 500
  }

  /** The reply of an add or update: the saved criminal, or the exception. */
  function SaveReply(r: Result<Saved>): (reply: Reply)
    ensures r.Success? <==> reply.Ok?
    ensures r.Success? ==> reply.criminal == r.value.criminal
  {
    match r
    case Success(s) => Ok(s.criminal)
    case Failure(msg) => ServerError(msg)
  }

  /** `updateCriminal(id, criminal, photo)`: the service's add, with the body's id replaced by `id`. */
  function UpdateResult(s: Store, id: int, c: Criminal, file: Option<seq<bv8>>, upload: Upload): Result<Saved> {
    Add(s, c.(id := Some(id)), file, upload)
  }

  /** Whatever id the body carries, an update stores the same thing. */
  lemma UpdateIgnoresBodyId(s: Store, id: int, c: Criminal, bodyId: Option<int>, file: Option<seq<bv8>>, upload: Upload)
    ensures UpdateResult(s, id, c.(id := bodyId), file, upload) == UpdateResult(s, id, c, file, upload)
  {
    assert c.(id := bodyId).(id := Some(id)) == c.(id := Some(id));
  }

  /** An update of an existing id overwrites exactly that row, under that id, and every other row stays. */
  lemma UpdateOfExistingId(s: Store, id: int, c: Criminal, file: Option<seq<bv8>>, upload: Upload)
    requires StoreValid(s) && id in s.criminals && UpdateResult(s, id, c, file, upload).Success?
    ensures var r := UpdateResult(s, id, c, file, upload).value;
            r.criminal.id == Some(id) && r.store.criminals.Keys == s.criminals.Keys &&
            r.store.criminals[id] == r.criminal &&
            forall k :: k in s.criminals && k != id ==> r.store.criminals[k] == s.criminals[k]
  {
    var c' := c.(id := Some(id));
    var url := PhotoUrl(file, upload);
    SaveExistingOverwrites(s, if url.value.Some? then c'.(photo := url.value) else c');
  }

  /** A successful update answers a criminal with the path id, unless that id has no row (then the
      save inserts under a new key). */
  lemma UpdateAnswersPathId(s: Store, id: int, c: Criminal, file: Option<seq<bv8>>, upload: Upload)
    ensures SaveReply(UpdateResult(s, id, c, file, upload)).Ok? ==>
              SaveReply(UpdateResult(s, id, c, file, upload)).criminal.id == Some(id) || id !in s.criminals
  {
  }

  /** As written, an update whose body carries no photo text and that comes without a file stores the
      row with no photo, whatever photo it had: the client's update sends no photo in its JSON part. */
  lemma UpdateWithoutFileDropsPhoto(s: Store, id: int, c: Criminal, file: Option<seq<bv8>>, upload: Upload)
    requires StoreValid(s) && id in s.criminals && c.photo.None? && !HasContent(file)
    ensures UpdateResult(s, id, c, file, upload).Success?
    ensures UpdateResult(s, id, c, file, upload).value.store.criminals[id].photo.None?
  {
    assert SaveKey(s, c.(id := Some(id))) == id;
  }

  /** A row with a photo URL, edited without a new file, loses its URL. */
  lemma PhotoLostOnEdit()
    ensures var before := Criminal(Some(1), "Ravi", 40, "Theft", "High", "Pune", "Wanted", "", Some("https://img/1.jpg"));
            var s := Store(map[1 := before], 2);
            var r := UpdateResult(s, 1, before.(id := None, photo := None, age := 41), None, UploadFailed);
            r.Success? && r.value.store.criminals[1].photo == None && s.criminals[1].photo != None
  {
    var before := Criminal(Some(1), "Ravi", 40, "Theft", "High", "Pune", "Wanted", "", Some("https://img/1.jpg"));
    var s := Store(map[1 := before], 2);
    UpdateWithoutFileDropsPhoto(s, 1, before.(id := None, photo := None, age := 41), None, UploadFailed);
  }

  /** The update the client evidently relies on: without a new file and without photo text, the row keeps
      the photo it had; in every other case it is the update as written. */
  function UpdateKeepingPhoto(s: Store, id: int, c: Criminal, file: Option<seq<bv8>>, upload: Upload): (r: Result<Saved>)
    ensures r.Failure? <==> HasContent(file) && upload.UploadFailed?
    ensures HasContent(file) || c.photo.Some? || id !in s.criminals ==> r == UpdateResult(s, id, c, file, upload)
  {
    if !HasContent(file) && c.photo.None? && id in s.criminals then
      UpdateResult(s, id, c.(photo := s.criminals[id].photo), file, upload)
    else UpdateResult(s, id, c, file, upload)
  }

  /** With the corrected update, an edit of an existing row stores the body's fields under the path id,
      keeps the stored photo unless a file with content was uploaded, and leaves every other row alone. */
  lemma UpdateKeepingPhotoKeepsRow(s: Store, id: int, c: Criminal, file: Option<seq<bv8>>, upload: Upload)
    requires StoreValid(s) && id in s.criminals && c.photo.None? && UpdateKeepingPhoto(s, id, c, file, upload).Success?
    ensures var r := UpdateKeepingPhoto(s, id, c, file, upload).value;
            r.store.criminals.Keys == s.criminals.Keys &&
            r.store.criminals[id] == c.(id := Some(id), photo := r.criminal.photo) &&
            (!HasContent(file) ==> r.criminal.photo == s.criminals[id].photo) &&
            (HasContent(file) ==> r.criminal.photo == Some(upload.secureUrl)) &&
            forall k :: k in s.criminals && k != id ==> r.store.criminals[k] == s.criminals[k]
  {
    var c' := if HasContent(file) then c else c.(photo := s.criminals[id].photo);
    assert SaveKey(s, c'.(id := Some(id))) == id;
    UpdateOfExistingId(s, id, c', file, upload);
  }

  /** The controller over one service object. */
  class CriminalEndpoints {
    const service: CriminalStore

    constructor (service: CriminalStore)
      ensures this.service == service
    {
      this.service := service;
    }

    /** `GET`: the service's list, unchanged, with 200. */
    method GetAllCriminals() returns (reply: Reply)
      ensures reply == Listed(service.GetAll()) && HttpStatus(reply) == 200
    {
      reply := Listed(service.GetAll());
    }

    /** `POST`: the service's add. */
    method AddCriminal(criminal: Criminal, photo: Option<seq<bv8>>, upload: Upload) returns (reply: Reply)
      requires service.Valid()
      modifies service
      ensures service.Valid()
      ensures var a := Add(old(service.State()), criminal, photo, upload);
              reply == SaveReply(a) && (a.Failure? ==> service.State() == old(service.State())) &&
              (a.Success? ==> service.State() == a.value.store)
      ensures HasContent(photo) ==> service.uploads == old(service.uploads) + [photo.value]
      ensures !HasContent(photo) ==> service.uploads == old(service.uploads)
    {
      var r := service.AddCriminal(criminal, photo, upload);
      reply := match r case Success(c) => Ok(c) case Failure(msg) => ServerError(msg);
    }

    /** `PUT /{id}`: `criminal.setId(id)`, then the service's add. */
    method UpdateCriminal(id: int, criminal: Criminal, photo: Option<seq<bv8>>, upload: Upload) returns (reply: Reply)
      requires service.Valid()
      modifies service
      ensures service.Valid()
      ensures var a := UpdateResult(old(service.State()), id, criminal, photo, upload);
              reply == SaveReply(a) && (a.Failure? ==> service.State() == old(service.State())) &&
              (a.Success? ==> service.State() == a.value.store)
    {
      var c := criminal.(id := Some(id));
      var r := service.AddCriminal(c, photo, upload);
      reply := match r case Success(saved) => Ok(saved) case Failure(msg) => ServerError(msg);
    }

    /** `DELETE /{id}`: 204 once the service's delete returns; its exception becomes a 500. */
    method DeleteCriminal(id: int) returns (reply: Reply)
      requires service.Valid()
      modifies service
      ensures service.Valid()
      ensures var d := Remove(old(service.State()), id);
              (d.Failure? ==> reply == ServerError(d.message) && service.State() == old(service.State())) &&
              (d.Success? ==> reply == NoContent && service.State() == d.value)
      ensures service.uploads == old(service.uploads)
    {
      var error := service.DeleteCriminal(id);
      reply := if error.Some? then ServerError(error.value) else NoContent;
    }
  }
}

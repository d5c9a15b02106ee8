/**
 * The client's visitor service: every operation it offers is one HTTP request to the visitors API,
 * authorised with a Bearer token (section 2.1 of RFC 6750) when one is kept in localStorage.
 */
module VisitorService {
  import opened Wrappers
  import opened Text
  import opened Visitors

  const ApiUrl := "http://localhost:8081/api/visitors"
  /** The localStorage key the token is read from. */
  const TokenKey := "token"

  /** The operations of the service object; there is no check-in operation. */
  datatype Op =
    | GetToday | GetUpcoming | GetAll | GetCompleted
    | ScheduleMeeting(data: Meeting)
    | UpdateMeeting(id: int, data: Meeting)
    | DeleteMeeting(id: int)
    | UpdateStatus(id: int, status: string)
    | Complete(id: int)
    | Cancel(id: int)

  /** The property names of the service object. */
  function OpName(op: Op): string {
    match op
    case GetToday => "getToday"
    case GetUpcoming => "getUpcoming"
    case GetAll => "getAll"
    case GetCompleted => "getCompleted"
    case ScheduleMeeting(_) => "schedule"
    case UpdateMeeting(_, _) => "update"
    case DeleteMeeting(_) => "delete"
    case UpdateStatus(_, _) => "updateStatus"
    case Complete(_) => "complete"
    case Cancel(_) => "cancel"
  }

  datatype Verb = GET | POST | PUT | DELETE

  /** One axios request: verb, URL, query parameters, headers and body (`null` being None). */
  datatype Request = Request(verb: Verb, url: string, params: map<string, string>,
                             headers: map<string, string>, body: Option<Meeting>)

  /** `getAuthHeader()`: a Bearer header when a non-empty token is stored, no header otherwise. */
  function AuthHeader(storage: map<string, string>): (h: map<string, string>)
    ensures "Authorization" in h <==> TokenKey in storage && storage[TokenKey] != ""
    ensures "Authorization" in h ==> h["Authorization"] == "Bearer " + storage[TokenKey]
    ensures h.Keys <= {"Authorization"}
  {
    if TokenKey in storage && storage[TokenKey] != "" then map["Authorization" := "Bearer " + storage[TokenKey]]
    else map[]
  }

  /** `{ ...getAuthHeader(), "Content-Type": "application/json" }`: the JSON content type, the bearer
      header exactly when a token is stored, and nothing else. */
  function JsonHeaders(storage: map<string, string>): (h: map<string, string>)
    ensures "Content-Type" in h && h["Content-Type"] == "application/json"
    ensures "Authorization" in h <==> TokenKey in storage && storage[TokenKey] != ""
    ensures "Authorization" in h ==> h["Authorization"] == "Bearer " + storage[TokenKey]
    ensures forall k :: k in h ==> k == "Content-Type" || k == "Authorization"
  {
    AuthHeader(storage)["Content-Type" := "application/json"]
  }

  function IdUrl(id: int): string {
    ApiUrl + "/" + IntToString(id)
  }

  /** The request each operation sends; `complete` and `cancel` delegate to `updateStatus`. */
  function RequestOf(op: Op, storage: map<string, string>): Request {
    match op
    case GetToday => Request(GET, ApiUrl + "/today", map[], AuthHeader(storage), None)
    case GetUpcoming => Request(GET, ApiUrl + "/upcoming", map[], AuthHeader(storage), None)
    case GetAll => Request(GET, ApiUrl, map[], AuthHeader(storage), None)
    case GetCompleted => Request(GET, ApiUrl + "/completed", map[], AuthHeader(storage), None)
    case ScheduleMeeting(data) => Request(POST, ApiUrl, map[], JsonHeaders(storage), Some(data))
    case UpdateMeeting(id, data) => Request(PUT, IdUrl(id), map[], JsonHeaders(storage), Some(data))
    case DeleteMeeting(id) => Request(DELETE, IdUrl(id), map[], AuthHeader(storage), None)
    case UpdateStatus(id, status) => StatusRequest(id, status, storage)
    case Complete(id) => StatusRequest(id, "COMPLETED", storage)
    case Cancel(id) => StatusRequest(id, "CANCELLED", storage)
  }

  /** `updateStatus(id, status)`: a PUT to `/{id}/status` with the status as a query parameter. */
  function StatusRequest(id: int, status: string, storage: map<string, string>): Request {
    Request(PUT, IdUrl(id) + "/status", map["status" := status], AuthHeader(storage), None)
  }

  /** `complete(id)` and `cancel(id)` are `updateStatus` with the upper-case statuses. */
  lemma CompleteAndCancelAreStatusUpdates(id: int, storage: map<string, string>)
    ensures RequestOf(Complete(id), storage) == RequestOf(UpdateStatus(id, "COMPLETED"), storage)
    ensures RequestOf(Cancel(id), storage) == RequestOf(UpdateStatus(id, "CANCELLED"), storage)
  {
  }

  /** Every request carries the Bearer header exactly when a token is stored. */
  lemma BearerExactlyWithToken(op: Op, storage: map<string, string>)
    ensures var h := RequestOf(op, storage).headers;
            ("Authorization" in h <==> TokenKey in storage && storage[TokenKey] != "") &&
            ("Authorization" in h ==> h["Authorization"] == "Bearer " + storage[TokenKey])
  {
  }

  /** `updateStatus` puts the status in the query string and sends a null body. */
  lemma UpdateStatusShape(id: int, status: string, storage: map<string, string>)
    ensures var r := RequestOf(UpdateStatus(id, status), storage);
            r.verb == PUT && r.params == map["status" := status] && r.body == None
  {
  }

  /** No operation of the service is called `checkin`. */
  lemma NoCheckin(op: Op)
    ensures OpName(op) != "checkin"
  {
  }

  /** The dashboard's quick actions, looked up on the service object: "checkin" finds nothing. */
  function ActionOp(action: string, id: int): (r: Option<Op>)
    ensures r.Some? ==> OpName(r.value) == action
    ensures action == "checkin" ==> r.None?
  {
    if action == "complete" then Some(Complete(id))
    else if action == "cancel" then Some(Cancel(id))
    else None
  }
}

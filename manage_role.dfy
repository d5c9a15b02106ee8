/**
 * The role management page: a fixed list of users filtered by a case-insensitive search and a status
 * selector, ten users a page with a window of at most five page buttons, and an inline role editor that
 * changes one user's role.
 */
module ManageRole {
  import opened Wrappers
  import opened Text
  import opened Seqs
  import opened Paging

  const UsersPerPage := 10
  const WindowSize := 5

  datatype AppUser = AppUser(id: int, name: string, role: string, status: string,
                             lastActivity: string, department: string, image: string)

  /** The search: the lower-cased term is a substring of the lower-cased name, role or department. */
  predicate MatchesTerm(u: AppUser, term: string) {
    Contains(ToLower(u.name), ToLower(term)) || Contains(ToLower(u.role), ToLower(term))
    || Contains(ToLower(u.department), ToLower(term))
  }

  /** The status selector: "All" keeps every status, any other value must be equal. */
  predicate MatchesStatus(u: AppUser, statusFilter: string) {
    statusFilter == "All" || u.status == statusFilter
  }

  /** `filteredUsers`: the users passing both tests, in list order. */
  function FilteredUsers(users: seq<AppUser>, term: string, statusFilter: string): (r: seq<AppUser>)
    ensures forall u :: u in r <==> u in users && MatchesTerm(u, term) && MatchesStatus(u, statusFilter)
    ensures |r| <= |users|
  {
    Filter(users, (u: AppUser) => MatchesTerm(u, term) && MatchesStatus(u, statusFilter))
  }

  /** No search and the "All" status list every user, in order. */
  lemma UnfilteredListsEveryone(users: seq<AppUser>)
    ensures FilteredUsers(users, "", "All") == users
  {
    forall u | u in users ensures MatchesTerm(u, "") {
      ContainsEmpty(ToLower(u.name));
    }
    FilterKeepsAll(users, (u: AppUser) => MatchesTerm(u, "") && MatchesStatus(u, "All"));
  }

  /** `Math.ceil(n / 10)`: zero when nothing matches. */
  function TotalPages(n: nat): (r: int)
    ensures r >= 0 && (r == 0 <==> n == 0)
    ensures (r - 1) * UsersPerPage < n <= r * UsersPerPage || n == 0
  {
    CeilDiv(n, UsersPerPage)
  }

  /** The number on the `index`-th page button. */
  function PageNumber(index: int, currentPage: int, totalPages: int): int {
    if totalPages <= WindowSize then index + 1
    else if currentPage <= 3 then index + 1
    else if currentPage >= totalPages - 2 then totalPages - 4 + index
    else currentPage - 2 + index
  }

  function Min(a: int, b: int): int {
    if a < b then a else b
  }

  /** The page buttons: `Math.min(totalPages, 5)` of them. */
  function PageWindow(currentPage: int, totalPages: nat): (w: seq<int>)
    ensures |w| == Min(totalPages, WindowSize)
    ensures forall i :: 0 <= i < |w| ==> w[i] == PageNumber(i, currentPage, totalPages)
  {
    seq(Min(totalPages, WindowSize), i => PageNumber(i, currentPage, totalPages))
  }

  /** For a current page within range the window is a run of consecutive, distinct page numbers between 1
      and the page count that contains the current page. */
  lemma PageWindowProperties(currentPage: int, totalPages: nat)
    requires 1 <= currentPage <= totalPages
    ensures var w := PageWindow(currentPage, totalPages);
            |w| == Min(totalPages, WindowSize)
            && (forall i :: 0 <= i < |w| - 1 ==> w[i + 1] == w[i] + 1)
            && (forall i, j :: 0 <= i < j < |w| ==> w[i] < w[j])
            && (forall i :: 0 <= i < |w| ==> 1 <= w[i] <= totalPages)
            && currentPage in w
  {
    var w := PageWindow(currentPage, totalPages);
    var k :=
      if totalPages <= WindowSize || currentPage <= 3 then currentPage - 1
      else if currentPage >= totalPages - 2 then currentPage - totalPages + 4
      else 2;
    assert 0 <= k < |w| && w[k] == currentPage;
  }

  /** "Showing a to b": `a = (currentPage - 1) * 10 + 1`, `b = min(currentPage * 10, n)`. */
  function ShowingFrom(currentPage: int): int {
    (currentPage - 1) * UsersPerPage + 1
  }

  function ShowingTo(currentPage: int, n: nat): int {
    Min(currentPage * UsersPerPage, n)
  }

  /** On a page within range, "a to b" counts exactly the users the page shows, and they are users a..b. */
  lemma ShowingMatchesPage(s: seq<AppUser>, currentPage: int)
    requires 1 <= currentPage <= TotalPages(|s|)
    ensures ShowingFrom(currentPage) <= ShowingTo(currentPage, |s|)
    ensures |PageSlice(s, currentPage, UsersPerPage)| == ShowingTo(currentPage, |s|) - ShowingFrom(currentPage) + 1
    ensures PageSlice(s, currentPage, UsersPerPage) == s[ShowingFrom(currentPage) - 1..ShowingTo(currentPage, |s|)]
  {
    var c := TotalPages(|s|);
    assert (currentPage - 1) * UsersPerPage <= (c - 1) * UsersPerPage;
  }

  /** `users.map(u => u.id === id ? { ...u, role } : u)`. */
  function SetRole(users: seq<AppUser>, id: int, role: string): (r: seq<AppUser>)
    ensures |r| == |users|
    ensures forall i :: 0 <= i < |users| ==> r[i] == if users[i].id == id then users[i].(role := role) else users[i]
  {
    seq(|users|, i requires 0 <= i < |users| => if users[i].id == id then users[i].(role := role) else users[i])
  }

  /** A role edit changes the role field of the users with that id and nothing else. */
  lemma SetRoleChangesOnlyRole(users: seq<AppUser>, id: int, role: string, i: nat)
    requires i < |users|
    ensures var u := SetRole(users, id, role)[i];
            u.id == users[i].id && u.name == users[i].name && u.status == users[i].status
            && u.department == users[i].department && u.image == users[i].image
            && u.lastActivity == users[i].lastActivity
            && u.role == (if users[i].id == id then role else users[i].role)
  {
  }

  class ManageRolePage {
    var users: seq<AppUser>
    var currentPage: int
    var editingId: Option<int>
    var editedRole: string
    var searchTerm: string
    var statusFilter: string

    /** The page starts on the hard-coded user list it is given. */
    constructor (initial: seq<AppUser>)
      ensures users == initial && currentPage == 1 && editingId == None && editedRole == ""
      ensures searchTerm == "" && statusFilter == "All"
    {
      users, currentPage, editingId, editedRole := initial, 1, None, "";
      searchTerm, statusFilter := "", "All";
    }

    function Filtered(): seq<AppUser>
      reads this
    {
      FilteredUsers(users, searchTerm, statusFilter)
    }

    /** The users on the current page, at most ten. */
    function CurrentUsers(): (r: seq<AppUser>)
      reads this
      ensures |r| <= UsersPerPage
    {
      PageSliceBounded(Filtered(), currentPage, UsersPerPage);
      PageSlice(Filtered(), currentPage, UsersPerPage)
    }

    method SetSearchTerm(term: string)
      modifies this`searchTerm, this`currentPage
      ensures searchTerm == term && currentPage == 1
    {
      searchTerm := term;
      currentPage := 1;
    }

    method SetStatusFilter(status: string)
      modifies this`statusFilter, this`currentPage
      ensures statusFilter == status && currentPage == 1
    {
      statusFilter := status;
      currentPage := 1;
    }

    /** `paginate(n)`: a page button, or Previous/Next with `currentPage - 1` / `currentPage + 1`. */
    method Paginate(pageNumber: int)
      modifies this`currentPage
      ensures currentPage == pageNumber
    {
      currentPage := pageNumber;
    }

    /** `handleEdit(id, role)`: the row turns into an editor holding the user's current role. */
    method HandleEdit(id: int, currentRole: string)
      modifies this`editingId, this`editedRole
      ensures editingId == Some(id) && editedRole == currentRole
    {
      editingId := Some(id);
      editedRole := currentRole;
    }

    /** Picking a role in the editor. */
    method SelectRole(role: string)
      modifies this`editedRole
      ensures editedRole == role
    {
      editedRole := role;
    }

    /** `handleCancel`: the editor closes and the users stay as they are. */
    method HandleCancel()
      modifies this`editingId, this`editedRole
      ensures editingId == None && editedRole == ""
    {
      editingId := None;
      editedRole := "";
    }

    /** `handleSave(id)`: the users with that id take the edited role, and the editor closes. */
    method HandleSave(id: int)
      modifies this`users, this`editingId, this`editedRole
      ensures users == SetRole(old(users), id, old(editedRole))
      ensures editingId == None && editedRole == ""
    {
      users := SetRole(users, id, editedRole);
      editingId := None;
      editedRole := "";
    }
  }
}

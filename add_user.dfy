/**
 * The add-user form: five checks run in a fixed order, each pushing its message onto the error list, and a
 * submit that posts the multipart body only when no check failed.
 */
module AddUser {
  import opened Wrappers
  import opened Text

  /** The form's fields; the photo is the chosen file's name, or None before one is chosen. */
  datatype UserForm = UserForm(photo: Option<string>, loginId: string, password: string, role: string)

  /** The five checks' failures, listed in the order the checks run. */
  datatype Issue = PhotoRequired | LoginIdRequired | PasswordTooShort | PasswordsDiffer | RoleRequired

  /** The message each failure pushes. */
  function Message(i: Issue): string {
    match i
    case PhotoRequired => "Photo is required."
    case LoginIdRequired => "Login ID is required."
    case PasswordTooShort => "Password must be at least 6 characters."
    case PasswordsDiffer => "Passwords do not match."
    case RoleRequired => "Role is required."
  }

  /** The position of each check in the order they run. */
  function Rank(i: Issue): nat {
    match i
    case PhotoRequired => 0
    case LoginIdRequired => 1
    case PasswordTooShort => 2
    case PasswordsDiffer => 3
    case RoleRequired => 4
  }

  /** The checks, each as the condition under which its message is pushed. */
  predicate PhotoMissing(f: UserForm) { f.photo.None? }
  predicate LoginIdMissing(f: UserForm) { Trim(f.loginId) == "" }
  predicate PasswordShort(f: UserForm) { |f.password| < 6 }
  predicate Mismatch(f: UserForm, confirm: string) { f.password != confirm }
  predicate RoleMissing(f: UserForm) { f.role == "" }

  /** Whether a check fails on the form. */
  predicate Fails(i: Issue, f: UserForm, confirm: string) {
    match i
    case PhotoRequired => PhotoMissing(f)
    case LoginIdRequired => LoginIdMissing(f)
    case PasswordTooShort => PasswordShort(f)
    case PasswordsDiffer => Mismatch(f, confirm)
    case RoleRequired => RoleMissing(f)
  }

  /** The `k`-th check to run. */
  function IssueAt(k: nat): (i: Issue)
    requires k < 5
    ensures Rank(i) == k
  {
    if k == 0 then PhotoRequired else if k == 1 then LoginIdRequired else if k == 2 then PasswordTooShort
    else if k == 3 then PasswordsDiffer else RoleRequired
  }

  /** The failures the first `n` checks push. */
  function ErrorsUpTo(f: UserForm, confirm: string, n: nat): (r: seq<Issue>)
    requires n <= 5
    ensures forall i :: i in r ==> Rank(i) < n
    ensures forall i, j :: 0 <= i < j < |r| ==> Rank(r[i]) < Rank(r[j])
  {
    if n == 0 then []
    else
      var prev := ErrorsUpTo(f, confirm, n - 1);
      var i := IssueAt(n - 1);
      if Fails(i, f, confirm) then prev + [i] else prev
  }

  /** The first `n` checks push exactly the ones of them that fail. */
  lemma {:induction false} ErrorsUpToMembers(f: UserForm, confirm: string, n: nat, i: Issue)
    requires n <= 5 && Rank(i) < n
    ensures i in ErrorsUpTo(f, confirm, n) <==> Fails(i, f, confirm)
  {
    if Rank(i) < n - 1 {
      ErrorsUpToMembers(f, confirm, n - 1, i);
    }
  }

  /** Running check `n`, the check `i` with outcome `failed`, pushes `i` exactly when it fails. */
  lemma ErrorsUpToStep(f: UserForm, confirm: string, n: nat, i: Issue, failed: bool)
    requires 1 <= n <= 5 && i == IssueAt(n - 1) && failed == Fails(i, f, confirm)
    ensures ErrorsUpTo(f, confirm, n) == if failed then ErrorsUpTo(f, confirm, n - 1) + [i] else ErrorsUpTo(f, confirm, n - 1)
  {
  }

  /** The failures `validateForm` records: exactly the failed checks, each once, in the checks' order. */
  function ValidationErrors(f: UserForm, confirm: string): (r: seq<Issue>)
    ensures PhotoRequired in r <==> PhotoMissing(f)
    ensures LoginIdRequired in r <==> LoginIdMissing(f)
    ensures PasswordTooShort in r <==> PasswordShort(f)
    ensures PasswordsDiffer in r <==> Mismatch(f, confirm)
    ensures RoleRequired in r <==> RoleMissing(f)
    ensures forall i, j :: 0 <= i < j < |r| ==> Rank(r[i]) < Rank(r[j])
  {
    ErrorsUpToMembers(f, confirm, 5, PhotoRequired);
    ErrorsUpToMembers(f, confirm, 5, LoginIdRequired);
    ErrorsUpToMembers(f, confirm, 5, PasswordTooShort);
    ErrorsUpToMembers(f, confirm, 5, PasswordsDiffer);
    ErrorsUpToMembers(f, confirm, 5, RoleRequired);
    ErrorsUpTo(f, confirm, 5)
  }

  /** The pushes of `validateForm`, one check after another, onto a fresh list. */
  method CollectErrors(f: UserForm, c: string) returns (newErrors: seq<Issue>)
    ensures newErrors == ValidationErrors(f, c)
  {
    newErrors := [];
    if f.photo.None? {
      newErrors := newErrors + [PhotoRequired];
    }
    ErrorsUpToStep(f, c, 1, PhotoRequired, f.photo.None?);
    assert newErrors == ErrorsUpTo(f, c, 1);
    if Trim(f.loginId) == "" {
      newErrors := newErrors + [LoginIdRequired];
    }
    ErrorsUpToStep(f, c, 2, LoginIdRequired, Trim(f.loginId) == "");
    assert newErrors == ErrorsUpTo(f, c, 2);
    if |f.password| < 6 {
      newErrors := newErrors + [PasswordTooShort];
    }
    ErrorsUpToStep(f, c, 3, PasswordTooShort, |f.password| < 6);
    assert newErrors == ErrorsUpTo(f, c, 3);
    if f.password != c {
      newErrors := newErrors + [PasswordsDiffer];
    }
    ErrorsUpToStep(f, c, 4, PasswordsDiffer, f.password != c);
    assert newErrors == ErrorsUpTo(f, c, 4);
    if f.role == "" {
      newErrors := newErrors + [RoleRequired];
    }
    ErrorsUpToStep(f, c, 5, RoleRequired, f.role == "");
    assert newErrors == ErrorsUpTo(f, c, 5);
  }

  /** The messages as the form lists them. */
  function Messages(r: seq<Issue>): (m: seq<string>)
    ensures |m| == |r| && forall i :: 0 <= i < |r| ==> m[i] == Message(r[i])
  {
    seq(|r|, i requires 0 <= i < |r| => Message(r[i]))
  }

  /** The form is valid exactly when every field check passes. */
  lemma ValidIffAllChecksPass(f: UserForm, confirm: string)
    ensures ValidationErrors(f, confirm) == [] <==>
              f.photo.Some? && !IsBlank(f.loginId) && |f.password| >= 6 && f.password == confirm && f.role != ""
  {
    TrimEmptyIffBlank(f.loginId);
    var r := ValidationErrors(f, confirm);
    if r != [] {
      assert r[0] in r;
    }
  }

  /** A login id of spaces alone is refused. */
  lemma BlankLoginIdRefused(f: UserForm, confirm: string)
    requires IsBlank(f.loginId)
    ensures LoginIdRequired in ValidationErrors(f, confirm)
  {
    TrimEmptyIffBlank(f.loginId);
  }

  /** A short password that also differs from its confirmation yields both failures, length first. */
  lemma ShortAndMismatchedTogether(f: UserForm, confirm: string)
    requires |f.password| < 6 && f.password != confirm
    ensures var r := ValidationErrors(f, confirm);
            exists i :: 0 <= i < |r| - 1 && r[i] == PasswordTooShort && r[i + 1] == PasswordsDiffer
  {
    var r := ValidationErrors(f, confirm);
    var before := ErrorsUpTo(f, confirm, 2);
    assert ErrorsUpTo(f, confirm, 4) == before + [PasswordTooShort] + [PasswordsDiffer];
    assert r[..|before| + 2] == ErrorsUpTo(f, confirm, 4);
  }

  /** The multipart body of the add request. */
  datatype AddRequest = AddRequest(photo: Option<string>, loginId: string, password: string, role: string, policeId: string)

  class AddUserPage {
    var form: UserForm
    var preview: Option<string>
    var confirmPassword: string
    var policeId: string
    var errors: seq<Issue>
    var sent: seq<AddRequest>
    var alerts: seq<string>
    var navigatedTo: Option<string>

    constructor ()
      ensures form == UserForm(None, "", "", "") && preview == None && confirmPassword == "" && policeId == ""
      ensures errors == [] && sent == [] && alerts == [] && navigatedTo == None
    {
      form, preview, confirmPassword, policeId := UserForm(None, "", "", ""), None, "", "";
      errors, sent, alerts, navigatedTo := [], [], [], None;
    }

    /** A text field or the role selector; a name the form does not have leaves it as it was. */
    method HandleChange(name: string, value: string)
      modifies this`form
      ensures form == (if name == "loginId" then old(form).(loginId := value)
                       else if name == "password" then old(form).(password := value)
                       else if name == "role" then old(form).(role := value)
                       else old(form))
    {
      if name == "loginId" {
        form := form.(loginId := value);
      } else if name == "password" {
        form := form.(password := value);
      } else if name == "role" {
        form := form.(role := value);
      }
    }

    /** The photo input: with a file chosen, the photo and its object-URL preview; otherwise nothing. */
    method HandlePhotoChange(file: Option<string>, objectUrl: string)
      modifies this`form, this`preview
      ensures file.Some? ==> form == old(form).(photo := file) && preview == Some(objectUrl)
      ensures file.None? ==> form == old(form) && preview == old(preview)
    {
      if file.Some? {
        form := form.(photo := file);
        preview := Some(objectUrl);
      }
    }

    method SetConfirmPassword(value: string)
      modifies this`confirmPassword
      ensures confirmPassword == value
    {
      confirmPassword := value;
    }

    method SetPoliceId(value: string)
      modifies this`policeId
      ensures policeId == value
    {
      policeId := value;
    }

    /** `validateForm`: the checks push their messages one after another; the list becomes the shown errors. */
    method ValidateForm() returns (ok: bool)
      modifies this`errors
      ensures errors == ValidationErrors(form, confirmPassword)
      ensures ok <==> errors == []
    {
      var newErrors := CollectErrors(form, confirmPassword);
      errors := newErrors;
      ok := |newErrors| == 0;
    }

    /** `handleSubmit`: nothing is posted unless the form is valid; then a success alert and the dashboard,
        or the error alert. */
    method HandleSubmit(added: bool)
      modifies this`errors, this`sent, this`alerts, this`navigatedTo
      ensures errors == ValidationErrors(form, confirmPassword)
      ensures errors != [] ==> sent == old(sent) && alerts == old(alerts) && navigatedTo == old(navigatedTo)
      ensures errors == [] ==>
                sent == old(sent) + [AddRequest(form.photo, form.loginId, form.password, form.role, policeId)]
                && alerts == old(alerts) + [if added then "User added successfully!" else "Error adding user"]
                && navigatedTo == (if added then Some("/dashboard") else old(navigatedTo))
    {
      var ok := ValidateForm();
      if !ok {
        return;
      }
      sent := sent + [AddRequest(form.photo, form.loginId, form.password, form.role, policeId)];
      if added {
        alerts := alerts + ["User added successfully!"];
        navigatedTo := Some("/dashboard");
      } else {
        alerts := alerts + ["Error adding user"];
      }
    }
  }
}

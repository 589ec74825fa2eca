/** `Profile`: the account form with its multipart update, the role label,
    and the password-confirmed account deletion. */
module Profile {
  import opened Common
  import opened Types
  import opened Storage
  import opened HookForm
  import opened ProgressService
  import opened AppContext
  import ApiClient

  const ProfileUrl: string := "/api/user/profile"

  /** `getRoleLabel(role)`. */
  function RoleLabel(role: string): (shown: string)
    ensures role == RoleAdmin ==> shown == "Administrator"
    ensures role == RoleDermatologist ==> shown == "Dermatologist"
    ensures role == RoleUser ==> shown == "User"
    ensures role != RoleAdmin && role != RoleDermatologist && role != RoleUser ==> shown == role
  {
    if role == RoleAdmin then "Administrator"
    else if role == RoleDermatologist then "Dermatologist"
    else if role == RoleUser then "User"
    else role
  }

  /** The three known roles are shown under a label other than their stored
      name; any other string is shown as it is. */
  lemma RoleLabelRenames(role: string)
    ensures RoleLabel(role) == role <==> role != RoleAdmin && role != RoleDermatologist && role != RoleUser
  {
    assert RoleLabel(RoleUser)[0] == RoleUser[0];
    assert RoleLabel(RoleUser)[1] != RoleUser[1];
    assert |RoleLabel(RoleAdmin)| != |RoleAdmin|;
    assert |RoleLabel(RoleDermatologist)| != |RoleDermatologist|;
  }

  /** The fields the form starts from. */
  datatype AccountFields = AccountFields(name: string, email: string, phone: string)

  /** `ProfileFormValues`; an unfilled password field is "". */
  datatype Values = Values(name: string, email: string, phone: string, currentPassword: string, newPassword: string)

  /** `userData?.name || ""` and so on: every missing part becomes "". */
  function Defaults(userData: Option<User>): (f: AccountFields)
    ensures userData.None? ==> f == AccountFields("", "", "")
    ensures userData.Some? ==> f.name == userData.value.name && f.email == userData.value.email
    ensures userData.Some? ==> f.phone == (if userData.value.phone.Some? then userData.value.phone.value else "")
  {
    match userData
    case None => AccountFields("", "", "")
    case Some(u) => AccountFields(u.name, u.email, u.phone.GetOr(""))
  }

  /** Both password fields filled: only then are they sent. */
  predicate ChangesPassword(v: Values) {
    v.currentPassword != "" && v.newPassword != ""
  }

  /** `onSubmit`'s `FormData`, appended field by field. `image` is the file
      input's first file. */
  method BuildProfileForm(v: Values, image: Option<File>) returns (form: FormData)
    ensures Keys(form) == ["name", "email", "phone"]
      + (if ChangesPassword(v) then ["currentPassword", "newPassword"] else [])
      + (if image.Some? then ["image"] else [])
    ensures form[0] == ("name", Text(v.name)) && form[1] == ("email", Text(v.email)) && form[2] == ("phone", Text(v.phone))
    ensures ChangesPassword(v) ==> form[3] == ("currentPassword", Text(v.currentPassword)) && form[4] == ("newPassword", Text(v.newPassword))
    ensures image.Some? ==> form[|form| - 1] == ("image", Blob(image.value))
  {
    form := [("name", Text(v.name))];
    form := form + [("email", Text(v.email))];
    form := form + [("phone", Text(v.phone))];
    if ChangesPassword(v) {
      form := form + [("currentPassword", Text(v.currentPassword))];
      form := form + [("newPassword", Text(v.newPassword))];
    }
    if image.Some? {
      form := form + [("image", Blob(image.value))];
    }
    assert Keys(form) == ["name", "email", "phone"]
      + (if ChangesPassword(v) then ["currentPassword", "newPassword"] else [])
      + (if image.Some? then ["image"] else []);
  }

  /** One password alone sends neither. */
  lemma OnePasswordSendsNeither(v: Values, form: FormData, image: Option<File>)
    requires v.currentPassword == "" || v.newPassword == ""
    requires Keys(form) == ["name", "email", "phone"]
      + (if ChangesPassword(v) then ["currentPassword", "newPassword"] else [])
      + (if image.Some? then ["image"] else [])
    ensures forall i :: 0 <= i < |form| ==> form[i].0 != "currentPassword" && form[i].0 != "newPassword"
  {
    assert forall i :: 0 <= i < |form| ==> form[i].0 == Keys(form)[i];
  }

  class Page {
    var form: Form<AccountFields>
    var isDeleteDialogOpen: bool
    var deletePassword: string
    /** The forms sent to `updateProfile`, in order. */
    var updates: seq<FormData>
    /** The passwords sent to `deleteProfile`, in order. */
    var deletions: seq<string>
    /** Where `navigate` last went. */
    var navigatedTo: Option<string>

    constructor(userData: Option<User>)
      ensures form == Init(Defaults(userData))
      ensures !isDeleteDialogOpen && deletePassword == "" && updates == [] && deletions == [] && navigatedTo.None?
    {
      form := Init(Defaults(userData));
      isDeleteDialogOpen := false;
      deletePassword := "";
      updates := [];
      deletions := [];
      navigatedTo := None;
    }

    /** The dialog's confirm button is enabled. */
    predicate CanConfirmDelete()
      reads this
    {
      deletePassword != ""
    }

    /** The effect on `userData`: reload the form when a user is present. */
    method UserDataChanged(userData: Option<User>)
      modifies this
      ensures form == if userData.Some? then old(form).ResetTo(Defaults(userData)) else old(form)
      ensures isDeleteDialogOpen == old(isDeleteDialogOpen) && deletePassword == old(deletePassword)
      ensures updates == old(updates) && deletions == old(deletions) && navigatedTo == old(navigatedTo)
    {
      if userData.Some? {
        form := form.ResetTo(Defaults(userData));
      }
    }

    /** `onSubmit(values)`: `outcome` is the awaited `updateProfile`; its user
        replaces the session's. */
    method Submit(v: Values, image: Option<File>, session: Session, outcome: Result<User>)
      modifies this, session
      ensures |updates| == |old(updates)| + 1 && updates[..|old(updates)|] == old(updates)
      ensures Keys(updates[|updates| - 1]) == ["name", "email", "phone"]
        + (if ChangesPassword(v) then ["currentPassword", "newPassword"] else [])
        + (if image.Some? then ["image"] else [])
      ensures var sent := updates[|updates| - 1];
        && sent[0] == ("name", Text(v.name)) && sent[1] == ("email", Text(v.email)) && sent[2] == ("phone", Text(v.phone))
        && (ChangesPassword(v) ==> sent[3] == ("currentPassword", Text(v.currentPassword)) && sent[4] == ("newPassword", Text(v.newPassword)))
        && (image.Some? ==> sent[|sent| - 1] == ("image", Blob(image.value)))
      ensures outcome.Ok? ==> session.State() == old(session.State()).(userData := Some(outcome.value))
      ensures outcome.Err? ==> session.State() == old(session.State())
      ensures form == old(form) && isDeleteDialogOpen == old(isDeleteDialogOpen) && deletePassword == old(deletePassword)
      ensures deletions == old(deletions) && navigatedTo == old(navigatedTo)
    {
      var sent := BuildProfileForm(v, image);
      updates := updates + [sent];
      if outcome.Ok? {
        session.SetUserData(Some(outcome.value));
      }
    }

    /** The delete dialog's `onOpenChange`: its trigger opens it, Cancel and
        the overlay close it. */
    method DeleteDialogChange(open: bool)
      modifies this
      ensures isDeleteDialogOpen == open
      ensures form == old(form) && deletePassword == old(deletePassword)
      ensures updates == old(updates) && deletions == old(deletions) && navigatedTo == old(navigatedTo)
    {
      isDeleteDialogOpen := open;
    }

    method SetDeletePassword(p: string)
      modifies this
      ensures deletePassword == p && CanConfirmDelete() == (p != "")
      ensures form == old(form) && isDeleteDialogOpen == old(isDeleteDialogOpen)
      ensures updates == old(updates) && deletions == old(deletions) && navigatedTo == old(navigatedTo)
    {
      deletePassword := p;
    }

    /** `handleDeleteAccount`, reachable only through the enabled confirm
        button; `outcome` is how `deleteProfile` ends. Success logs out and
        goes to the login page; a rejection went through the error
        interceptor (a 401 tears the session down there); the dialog closes
        either way. */
    method DeleteAccount(b: Browser, session: Session, outcome: ApiClient.Call<()>)
      requires CanConfirmDelete()
      modifies this, b, session
      ensures deletions == old(deletions) + [old(deletePassword)]
      ensures !isDeleteDialogOpen
      ensures outcome.Resolved? ==>
        && b.storage == Cleared(old(b.storage)) && b.location == old(b.location)
        && !session.IsAuthenticated() && navigatedTo == Some(LoginPath)
      ensures outcome.Rejected? ==>
        && (b.storage, b.location) == ApiClient.AfterReject(old(b.storage), old(b.location), outcome.error)
        && session.State() == old(session.State()) && navigatedTo == old(navigatedTo)
      ensures form == old(form) && updates == old(updates) && deletePassword == old(deletePassword)
    {
      deletions := deletions + [deletePassword];
      match outcome {
        case Resolved(_) =>
          session.Logout(b);
          navigatedTo := Some(LoginPath);
        case Rejected(e) =>
          var _ := ApiClient.Reject(b, ProfileUrl, e);
      }
      isDeleteDialogOpen := false;
    }
  }
}

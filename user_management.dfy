/** The administrator's user management panel: searching the users
    service, editing one user's display name, phone and role, and saving
    the edit into the search results. `searchUsers` and `updateUserAsAdmin`
    are imported from the API module, which does not define them; their
    outcomes are parameters. */
module UserManagement {
  import opened Outcomes
  import opened Text

  /** A user as the search returns it; any field may be missing. */
  datatype ManagedUser = ManagedUser(uid: Option<string>, email: Option<string>, displayName: Option<string>,
                                     phone: Option<string>, role: Option<string>)

  /** What `searchUsers(query)` resolves with: `{ users }`, which may be
      missing. */
  datatype SearchData = SearchData(users: Option<seq<ManagedUser>>)

  /** The edit form's three fields. */
  datatype EditForm = EditForm(displayName: string, phone: string, role: string)

  /** The `name` attribute of the input that changed. */
  datatype FormField = DisplayNameField | PhoneField | RoleField

  const EmptyForm := EditForm("", "", "Parent")

  const NoUsersMessage := "No users found matching your search"
  const SearchFailurePrefix := "Search failed: "
  /** The TypeError `data.users.length` throws when `users` is missing. */
  const UndefinedLengthMessage := "Cannot read properties of undefined (reading 'length')"
  /** The TypeError `editingUser.uid` throws when nobody is being edited. */
  const NullUidMessage := "Cannot read properties of null (reading 'uid')"
  const SelfEditMessage := "You cannot edit your own profile from here. Use the My Profile page."
  const SaveFailurePrefix := "Failed to update user: "

  /** The form a user is opened with: their values, or the defaults. */
  function FormFor(user: ManagedUser): (f: EditForm)
    ensures f.displayName == user.displayName.GetOr("") && f.phone == user.phone.GetOr("")
    ensures user.role.None? || user.role.value == "" ==> f.role == "Parent"
    ensures user.role.Some? && user.role.value != "" ==> f.role == user.role.value
  {
    EditForm(OptOrElse(user.displayName, ""), OptOrElse(user.phone, ""), OptOrElse(user.role, "Parent"))
  }

  /** `{ ...prev, [name]: value }`. */
  function SetField(f: EditForm, field: FormField, value: string): (g: EditForm)
    ensures field == DisplayNameField ==> g == f.(displayName := value)
    ensures field == PhoneField ==> g == f.(phone := value)
    ensures field == RoleField ==> g == f.(role := value)
  {
    match field
    case DisplayNameField => f.(displayName := value)
    case PhoneField => f.(phone := value)
    case RoleField => f.(role := value)
  }

  /** `{ ...u, ...editForm }`. */
  function Edited(u: ManagedUser, f: EditForm): (v: ManagedUser)
    ensures v.uid == u.uid && v.email == u.email
    ensures v.displayName == Some(f.displayName) && v.phone == Some(f.phone) && v.role == Some(f.role)
  {
    u.(displayName := Some(f.displayName), phone := Some(f.phone), role := Some(f.role))
  }

  /** The saved edit applied to the search results: every entry with the
      edited uid takes the form's values; the others are left as they are. */
  function MergeEdited(results: seq<ManagedUser>, uid: Option<string>, f: EditForm): (r: seq<ManagedUser>)
    ensures |r| == |results|
    ensures forall i :: 0 <= i < |results| ==> r[i].uid == results[i].uid && r[i].email == results[i].email
    ensures forall i :: 0 <= i < |results| && results[i].uid != uid ==> r[i] == results[i]
    ensures forall i :: 0 <= i < |results| && results[i].uid == uid ==> r[i] == Edited(results[i], f)
  {
    if results == [] then []
    else
      var first := if results[0].uid == uid then Edited(results[0], f) else results[0];
      [first] + MergeEdited(results[1..], uid, f)
  }

  /** Saving the same form twice changes nothing more. */
  lemma MergeEditedIdempotent(results: seq<ManagedUser>, uid: Option<string>, f: EditForm)
    ensures MergeEdited(MergeEdited(results, uid, f), uid, f) == MergeEdited(results, uid, f)
  {
  }

  /** Saving a form for a uid no result has leaves the results alone. */
  lemma MergeEditedAbsent(results: seq<ManagedUser>, uid: Option<string>, f: EditForm)
    requires forall i :: 0 <= i < |results| ==> results[i].uid != uid
    ensures MergeEdited(results, uid, f) == results
  {
  }

  class AdminUserManagement {
    /** The signed-in administrator's uid, a prop. */
    const currentUserUid: Option<string>
    var searchQuery: string
    var searchResults: seq<ManagedUser>
    var searching: bool
    var editingUser: Option<ManagedUser>
    var editForm: EditForm
    var saving: bool
    var error: string
    var success: string

    constructor (currentUserUid: Option<string>)
      ensures this.currentUserUid == currentUserUid
      ensures searchQuery == "" && searchResults == [] && !searching && editingUser == None
      ensures editForm == EmptyForm && !saving && error == "" && success == ""
    {
      this.currentUserUid := currentUserUid;
      searchQuery, searchResults, searching, editingUser := "", [], false, None;
      editForm, saving, error, success := EmptyForm, false, "", "";
    }

    /** Typing in the search box. */
    method SetSearchQuery(value: string)
      modifies this
      ensures searchQuery == value
      ensures searchResults == old(searchResults) && editingUser == old(editingUser)
      ensures editForm == old(editForm) && error == old(error) && success == old(success)
    {
      searchQuery := value;
    }

    /** The search form: a blank query (`!searchQuery.trim()`, which
        `TrimEmptyIffBlank` shows is an all-white-space query) does
        nothing; otherwise `found` is what `searchUsers(searchQuery)` did,
        and `request` the query it was sent, untrimmed. A resolved value
        without `users` empties the results and then fails on its missing
        length. */
    method HandleSearch(found: Outcome<SearchData>) returns (request: Option<string>)
      modifies this
      ensures request.None? <==> IsBlank(old(searchQuery))
      ensures request.None? ==> searchResults == old(searchResults) && error == old(error) && success == old(success)
      ensures request.Some? ==> request.value == searchQuery && success == ""
      ensures request.Some? && found.Done? ==> searchResults == found.value.users.GetOr([])
      ensures request.Some? && found.Done? && found.value.users.Some? ==>
        error == (if found.value.users.value == [] then NoUsersMessage else "")
      ensures request.Some? && found.Done? && found.value.users.None? ==>
        error == SearchFailurePrefix + UndefinedLengthMessage
      ensures request.Some? && found.Threw? ==>
        searchResults == old(searchResults) && error == SearchFailurePrefix + found.err.message
      ensures request.Some? ==> !searching
      ensures request.None? ==> searching == old(searching)
      ensures searchQuery == old(searchQuery) && editingUser == old(editingUser)
      ensures editForm == old(editForm) && saving == old(saving)
    {
      if IsBlank(searchQuery) {
        return None;
      }
      searching := true;
      error := "";
      success := "";
      request := Some(searchQuery);
      match found {
        case Done(data) =>
          searchResults := data.users.GetOr([]);
          if data.users.None? {
            error := SearchFailurePrefix + UndefinedLengthMessage;
          } else if data.users.value == [] {
            error := NoUsersMessage;
          }
        case Threw(err) =>
          error := SearchFailurePrefix + err.message;
      }
      searching := false;
    }

    /** The Edit button of a result. The administrator's own entry is
        refused (its button is also disabled). */
    method HandleEditClick(user: ManagedUser)
      modifies this
      ensures user.uid == currentUserUid ==>
        error == SelfEditMessage && editingUser == old(editingUser) && editForm == old(editForm)
        && success == old(success)
      ensures user.uid != currentUserUid ==>
        editingUser == Some(user) && editForm == FormFor(user) && error == "" && success == ""
      ensures searchQuery == old(searchQuery) && searchResults == old(searchResults)
      ensures searching == old(searching) && saving == old(saving)
    {
      if user.uid == currentUserUid {
        error := SelfEditMessage;
        return;
      }
      editingUser := Some(user);
      editForm := FormFor(user);
      error := "";
      success := "";
    }

    /** The Cancel button. */
    method HandleCancelEdit()
      modifies this
      ensures editingUser == None && editForm == EmptyForm && error == "" && success == ""
      ensures searchQuery == old(searchQuery) && searchResults == old(searchResults)
      ensures searching == old(searching) && saving == old(saving)
    {
      editingUser := None;
      editForm := EmptyForm;
      error := "";
      success := "";
    }

    /** A change in one of the form's inputs. */
    method HandleInputChange(field: FormField, value: string)
      modifies this
      ensures editForm == SetField(old(editForm), field, value)
      ensures editingUser == old(editingUser) && searchResults == old(searchResults)
      ensures error == old(error) && success == old(success) && saving == old(saving)
    {
      editForm := SetField(editForm, field, value);
    }

    /** The Save button: `saved` is what `updateUserAsAdmin(uid, editForm)`
        did, `request` the uid and form it was sent (none when nobody is
        being edited, where reading the uid throws first). On success the
        results take the form's values, a success message names the user,
        and the editor closes. */
    method HandleSaveUser(saved: Outcome<()>) returns (request: Option<(Option<string>, EditForm)>)
      modifies this
      ensures request.Some? <==> old(editingUser).Some?
      ensures request.Some? ==> request.value == (old(editingUser).value.uid, old(editForm))
      ensures request.None? ==>
        searchResults == old(searchResults) && editingUser == None
        && error == SaveFailurePrefix + NullUidMessage && success == ""
      ensures request.Some? && saved.Done? ==>
        && searchResults == MergeEdited(old(searchResults), old(editingUser).value.uid, old(editForm))
        && success == "Successfully updated " + old(editForm).displayName + "'s profile"
        && editingUser == None && error == ""
      ensures request.Some? && saved.Threw? ==>
        && searchResults == old(searchResults) && editingUser == old(editingUser)
        && error == SaveFailurePrefix + saved.err.message && success == ""
      ensures !saving && editForm == old(editForm)
      ensures searchQuery == old(searchQuery) && searching == old(searching)
    {
      saving := true;
      error := "";
      success := "";
      match editingUser {
        case None =>
          request := None;
          error := SaveFailurePrefix + NullUidMessage;
        case Some(user) =>
          request := Some((user.uid, editForm));
          if saved.Done? {
            searchResults := MergeEdited(searchResults, user.uid, editForm);
            success := "Successfully updated " + editForm.displayName + "'s profile";
            editingUser := None;
          } else {
            error := SaveFailurePrefix + saved.err.message;
          }
      }
      saving := false;
    }

    /** The three-second timer a successful save starts. */
    method SuccessTimerFired()
      modifies this
      ensures success == ""
      ensures searchResults == old(searchResults) && editingUser == old(editingUser)
      ensures editForm == old(editForm) && error == old(error)
    {
      success := "";
    }

    /** Whether a result's Edit button is disabled. */
    function EditDisabled(user: ManagedUser): (d: bool)
      reads this
      ensures d <==> user.uid == currentUserUid
    {
      user.uid == currentUserUid
    }
  }

  /** The Edit button and its handler agree: the editor opens for a result
      exactly when its button is enabled, and the administrator's own entry
      gets the self-edit message instead. */
  method EditButtonGuardsTheEditor(admin: Option<string>, user: ManagedUser)
    returns (disabled: bool, editorOpen: bool, shown: string)
    ensures disabled <==> user.uid == admin
    ensures editorOpen <==> !disabled
    ensures disabled ==> shown == SelfEditMessage
    ensures !disabled ==> shown == ""
  {
    var panel := new AdminUserManagement(admin);
    disabled := panel.EditDisabled(user);
    panel.HandleEditClick(user);
    editorOpen := panel.editingUser == Some(user);
    shown := panel.error;
  }

  /** Searching, opening another user, changing the role and saving: that
      user's entry
      in the results takes the new role and keeps its uid and email; no
      other entry changes. */
  method EditRoleAndSave(admin: Option<string>, results: seq<ManagedUser>, k: nat, role: string)
    returns (after: seq<ManagedUser>)
    requires k < |results| && results[k].uid != admin
    ensures |after| == |results|
    ensures after[k].role == Some(role) && after[k].uid == results[k].uid && after[k].email == results[k].email
    ensures forall i :: 0 <= i < |results| && results[i].uid != results[k].uid ==> after[i] == results[i]
  {
    var panel := new AdminUserManagement(admin);
    panel.SetSearchQuery("a");
    assert !IsSpace("a"[0]);
    var _ := panel.HandleSearch(Done(SearchData(Some(results))));
    assert panel.searchResults == results;
    panel.HandleEditClick(results[k]);
    assert panel.editingUser == Some(results[k]);
    panel.HandleInputChange(RoleField, role);
    assert panel.editForm.role == role;
    var _ := panel.HandleSaveUser(Done(()));
    after := panel.searchResults;
  }
}

/**
 * The user administration page: a table of users (id, user name, e-mail)
 * kept in page state, one dialog that either creates a user or edits the
 * user picked from the table, and a delete button guarded by a browser
 * confirmation. The new id (`Date.now().toString()`) and the answer to the
 * confirmation are parameters.
 */
module UserManagement {
  import opened Common

  datatype User = User(id: string, username: string, email: string)

  /** The dialog's form: the user name and e-mail being typed. */
  datatype UserDraft = UserDraft(username: string, email: string)

  const EmptyDraft := UserDraft("", "")

  function DraftOf(user: User): (d: UserDraft)
    ensures d.username == user.username && d.email == user.email
  {
    UserDraft(user.username, user.email)
  }

  /** Both fields must be non-empty strings before anything is saved. */
  predicate CanSaveUser(d: UserDraft)
  {
    d.username != "" && d.email != ""
  }

  /** `isEditing && editingUserId`: the id must be set and, being a string, non-empty. */
  predicate EditsExisting(isEditing: bool, editingId: Option<string>)
  {
    isEditing && editingId.Some? && editingId.value != ""
  }

  predicate UniqueIds(users: seq<User>)
  {
    forall i, j :: 0 <= i < j < |users| ==> users[i].id != users[j].id
  }

  /** The update branch: every user with the edited id takes the draft's fields and keeps the id. */
  function EditUsers(users: seq<User>, id: string, d: UserDraft): (r: seq<User>)
    ensures |r| == |users|
    ensures forall i :: 0 <= i < |r| ==> r[i].id == users[i].id
    ensures forall i :: 0 <= i < |r| ==> if users[i].id == id then DraftOf(r[i]) == d else r[i] == users[i]
  {
    seq(|users|, i requires 0 <= i < |users| =>
      if users[i].id == id then User(id, d.username, d.email) else users[i])
  }

  /** The delete branch: every user with the id is dropped. */
  function DeleteUsers(users: seq<User>, id: string): (r: seq<User>)
    ensures forall i :: 0 <= i < |r| ==> r[i].id != id && r[i] in users
  {
    Filter(users, (u: User) => u.id != id)
  }

  /** The save button: nothing on a missing field, else an update or an append of a new user. */
  function SaveUsers(users: seq<User>, d: UserDraft, isEditing: bool, editingId: Option<string>, freshId: string): seq<User>
  {
    if !CanSaveUser(d) then users
    else if EditsExisting(isEditing, editingId) then EditUsers(users, editingId.value, d)
    else users + [User(freshId, d.username, d.email)]
  }

  // ---------------------------------------------------------------------
  // Saving

  /** A missing user name or e-mail leaves the table alone. */
  lemma SaveRejected(users: seq<User>, d: UserDraft, isEditing: bool, editingId: Option<string>, freshId: string)
    requires d.username == "" || d.email == ""
    ensures SaveUsers(users, d, isEditing, editingId, freshId) == users
  {
  }

  /** Creating appends exactly one user, carrying the fresh id and the typed fields, and keeps the ids unique when the id is new. */
  lemma SaveAppends(users: seq<User>, d: UserDraft, isEditing: bool, editingId: Option<string>, freshId: string)
    requires CanSaveUser(d) && !EditsExisting(isEditing, editingId)
    ensures var r := SaveUsers(users, d, isEditing, editingId, freshId);
      |r| == |users| + 1 && r[..|users|] == users
      && r[|users|].id == freshId && DraftOf(r[|users|]) == d
    ensures UniqueIds(users) && (forall i :: 0 <= i < |users| ==> users[i].id != freshId) ==>
      UniqueIds(SaveUsers(users, d, isEditing, editingId, freshId))
  {
    var r := SaveUsers(users, d, isEditing, editingId, freshId);
    assert r == users + [User(freshId, d.username, d.email)];
    assert r[..|users|] == users;
  }

  /** Updating keeps the length and every id, so unique ids stay unique. */
  lemma SaveEditsKeepIds(users: seq<User>, d: UserDraft, isEditing: bool, editingId: Option<string>, freshId: string)
    requires CanSaveUser(d) && EditsExisting(isEditing, editingId)
    ensures var r := SaveUsers(users, d, isEditing, editingId, freshId);
      |r| == |users| && forall i :: 0 <= i < |r| ==> r[i].id == users[i].id
    ensures UniqueIds(users) ==> UniqueIds(SaveUsers(users, d, isEditing, editingId, freshId))
  {
  }

  /** Saving the same edit twice changes nothing the second time. */
  lemma EditIdempotent(users: seq<User>, id: string, d: UserDraft)
    ensures EditUsers(EditUsers(users, id, d), id, d) == EditUsers(users, id, d)
  {
    var once := EditUsers(users, id, d);
    var twice := EditUsers(once, id, d);
    forall i | 0 <= i < |users| ensures twice[i] == once[i] {
      if users[i].id == id {
        assert once[i] == User(id, d.username, d.email);
      }
    }
  }

  /** Opening a user for editing and saving without typing leaves the table as it was. */
  lemma EditUnchangedDraft(users: seq<User>, k: nat)
    requires k < |users| && UniqueIds(users)
    ensures EditUsers(users, users[k].id, DraftOf(users[k])) == users
  {
    var r := EditUsers(users, users[k].id, DraftOf(users[k]));
    forall i | 0 <= i < |users| ensures r[i] == users[i] {
      if i < k {
        assert users[i].id != users[k].id;
      } else if i > k {
        assert users[k].id != users[i].id;
      }
    }
  }

  /** Editing a user name or e-mail does not touch a table without the id. */
  lemma EditUnknownId(users: seq<User>, id: string, d: UserDraft)
    requires forall i :: 0 <= i < |users| ==> users[i].id != id
    ensures EditUsers(users, id, d) == users
  {
  }

  // ---------------------------------------------------------------------
  // Deleting

  /** With unique ids, deleting a user removes exactly its row. */
  lemma DeleteExact(users: seq<User>, k: nat)
    requires UniqueIds(users) && k < |users|
    ensures DeleteUsers(users, users[k].id) == users[..k] + users[k + 1..]
  {
    var id := users[k].id;
    var p := (u: User) => u.id != id;
    var before, after := users[..k], users[k + 1..];
    assert users == (before + [users[k]]) + after;
    forall i | 0 <= i < |before| ensures p(before[i]) {
      assert before[i] == users[i] && users[i].id != id;
    }
    forall i | 0 <= i < |after| ensures p(after[i]) {
      assert after[i] == users[k + 1 + i] && id != users[k + 1 + i].id;
    }
    FilterAll(before, p);
    FilterAll(after, p);
    FilterSnoc(before, users[k], p);
    assert Filter(before + [users[k]], p) == before;
    FilterAppend(before + [users[k]], after, p);
  }

  /** Deleting an id nobody has keeps the table. */
  lemma DeleteAbsent(users: seq<User>, id: string)
    requires forall i :: 0 <= i < |users| ==> users[i].id != id
    ensures DeleteUsers(users, id) == users
  {
    FilterAll(users, (u: User) => u.id != id);
  }

  /** Deleting keeps the ids unique. */
  lemma DeleteKeepsUnique(users: seq<User>, id: string)
    requires UniqueIds(users)
    ensures UniqueIds(DeleteUsers(users, id))
  {
    if k :| 0 <= k < |users| && users[k].id == id {
      DeleteExact(users, k);
      DropKeepsUnique(users, k);
    } else {
      DeleteAbsent(users, id);
    }
  }

  /** Dropping the user at one position keeps the ids unique. */
  lemma DropKeepsUnique(users: seq<User>, k: nat)
    requires UniqueIds(users) && k < |users|
    ensures UniqueIds(users[..k] + users[k + 1..])
  {
    var r := users[..k] + users[k + 1..];
    forall i, j | 0 <= i < j < |r| ensures r[i].id != r[j].id {
      var a := if i < k then i else i + 1;
      var b := if j < k then j else j + 1;
      assert r[i] == users[a] && r[j] == users[b] && a < b;
    }
  }

  /** Deleting a user after editing it is the same as deleting it straight away. */
  lemma {:induction false} EditThenDelete(users: seq<User>, id: string, d: UserDraft)
    ensures DeleteUsers(EditUsers(users, id, d), id) == DeleteUsers(users, id)
  {
    if users != [] {
      var n := |users| - 1;
      var p := (u: User) => u.id != id;
      var edited := EditUsers(users, id, d);
      EditThenDelete(users[..n], id, d);
      assert edited == EditUsers(users[..n], id, d) + [edited[n]];
      assert users == users[..n] + [users[n]];
      FilterSnoc(EditUsers(users[..n], id, d), edited[n], p);
      FilterSnoc(users[..n], users[n], p);
    }
  }

  // ---------------------------------------------------------------------
  // The page

  class UserManagementPage {
    var users: seq<User>
    var dialogOpen: bool
    var draft: UserDraft
    var isEditing: bool
    var editingUserId: Option<string>

    constructor()
      ensures users == [] && !dialogOpen && draft == EmptyDraft && !isEditing && editingUserId == None
    {
      users := [];
      dialogOpen := false;
      draft := EmptyDraft;
      isEditing := false;
      editingUserId := None;
    }

    /** The dialog's save button; a successful save resets the form and closes the dialog. */
    method HandleAddOrUpdateUser(freshId: string)
      modifies this
      ensures users == SaveUsers(old(users), old(draft), old(isEditing), old(editingUserId), freshId)
      ensures CanSaveUser(old(draft)) ==>
                draft == EmptyDraft && !dialogOpen && !isEditing && editingUserId == None
      ensures !CanSaveUser(old(draft)) ==>
                draft == old(draft) && dialogOpen == old(dialogOpen)
                && isEditing == old(isEditing) && editingUserId == old(editingUserId)
    {
      if draft.username == "" || draft.email == "" {
        return;
      }
      if isEditing && editingUserId.Some? && editingUserId.value != "" {
        users := EditUsers(users, editingUserId.value, draft);
      } else {
        users := users + [User(freshId, draft.username, draft.email)];
      }
      draft := EmptyDraft;
      dialogOpen := false;
      isEditing := false;
      editingUserId := None;
    }

    /** The edit button of a row: the dialog opens on a copy of the user's fields. */
    method HandleEditUser(user: User)
      modifies this
      ensures isEditing && editingUserId == Some(user.id) && draft == DraftOf(user) && dialogOpen
      ensures users == old(users)
    {
      isEditing := true;
      editingUserId := Some(user.id);
      draft := DraftOf(user);
      dialogOpen := true;
    }

    /** The delete button of a row; nothing happens unless the confirmation is accepted. */
    method HandleDeleteUser(id: string, confirmed: bool)
      modifies this
      ensures users == if confirmed then DeleteUsers(old(users), id) else old(users)
      ensures draft == old(draft) && dialogOpen == old(dialogOpen)
      ensures isEditing == old(isEditing) && editingUserId == old(editingUserId)
    {
      if confirmed {
        users := DeleteUsers(users, id);
      }
    }

    /** Typing in the dialog. */
    method SetDraft(username: string, email: string)
      modifies this
      ensures draft == UserDraft(username, email)
      ensures users == old(users) && dialogOpen == old(dialogOpen)
      ensures isEditing == old(isEditing) && editingUserId == old(editingUserId)
    {
      draft := UserDraft(username, email);
    }

    /** Opening or dismissing the dialog; the editing state is kept as it is. */
    method SetDialogOpen(open: bool)
      modifies this
      ensures dialogOpen == open
      ensures users == old(users) && draft == old(draft)
      ensures isEditing == old(isEditing) && editingUserId == old(editingUserId)
    {
      dialogOpen := open;
    }
  }
}

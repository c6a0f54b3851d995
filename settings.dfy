/** The settings page of src/pages/Settings.tsx, over the user registry of the auth
    context and the company settings hook: the admin-only users list, writer creation and
    deletion, the admin password change, the writer panel's filter, and company field
    edits. The application and security panels only hold local form state that nothing
    reads, and are left out. */
module SettingsPage {
  import opened Wrappers
  import opened Lists
  import opened Auth
  import opened CompanySettings

  /** The new-writer form. */
  datatype WriterForm = WriterForm(fullName: string, phone: string, password: string)

  const BlankWriterForm := WriterForm("", "", "")

  /** `!fullName || !phone || !password` fails: every field holds some text. */
  predicate Filled(f: WriterForm)
  {
    f.fullName != "" && f.phone != "" && f.password != ""
  }

  predicate IsWriterUser(u: User) { u.role == Writer }

  /** `users.filter(u => u.role === 'writer')`: the writer panel lists the writers, every
      one of them, in the users' order. */
  function WriterList(users: seq<User>): (r: seq<User>)
    ensures |r| <= |users|
    ensures forall i :: 0 <= i < |r| ==> r[i] in users && r[i].role == Writer
    ensures forall i :: 0 <= i < |users| && users[i].role == Writer ==> users[i] in r
  {
    Filter(users, IsWriterUser)
  }

  /** The administrator is never offered for deletion. */
  lemma AdminNeverListed(users: seq<User>)
    ensures SeedAdmin !in WriterList(users)
  {
  }

  /** A newly created writer appears at the end of the writer panel. */
  lemma CreatedWriterListed(users: seq<User>, w: User)
    requires w.role == Writer
    ensures WriterList(users + [w]) == WriterList(users) + [w]
  {
    FilterAppend(users, [w], IsWriterUser);
    assert Filter([w], IsWriterUser) == [w];
  }

  /** How `handleChangeAdminPassword` ends: the length check fails, there is no current
      user (the handler then does nothing at all), the registry has no password map, or
      the password changed. */
  datatype PasswordOutcome = TooShort | NoCurrentUser | ChangeFailed | Changed

  class SettingsPage {
    const registry: UserRegistry
    const company: CompanySettingsStore
    /** The `users` state the writer panel is drawn from. */
    var users: seq<User>
    var newWriter: WriterForm
    var newAdminPassword: string

    constructor (r: UserRegistry, c: CompanySettingsStore)
      ensures registry == r && company == c
      ensures users == [] && newWriter == BlankWriterForm && newAdminPassword == ""
    {
      registry := r;
      company := c;
      users := [];
      newWriter := BlankWriterForm;
      newAdminPassword := "";
    }

    /** The `isAdmin` effect: only an administrator gets the users list. */
    method LoadUsers()
      modifies this
      ensures users == if registry.IsAdmin() then registry.AllUsers() else old(users)
      ensures newWriter == old(newWriter) && newAdminPassword == old(newAdminPassword)
    {
      if registry.IsAdmin() {
        users := registry.AllUsers();
      }
    }

    method SetNewWriter(f: WriterForm)
      modifies this
      ensures newWriter == f
      ensures users == old(users) && newAdminPassword == old(newAdminPassword)
    {
      newWriter := f;
    }

    method SetNewAdminPassword(p: string)
      modifies this
      ensures newAdminPassword == p
      ensures users == old(users) && newWriter == old(newWriter)
    {
      newAdminPassword := p;
    }

    /** A form with an empty field, or no current user, leaves everything unchanged.
        Otherwise the registry appends one writer created by the current user, the list
        is re-read from the registry and the form is cleared. */
    method HandleCreateWriter() returns (created: Option<User>)
      modifies this, registry
      ensures !Filled(old(newWriter)) || old(registry.currentUser).None? ==>
                && created.None?
                && users == old(users) && newWriter == old(newWriter)
                && registry.users == old(registry.users) && registry.passwords == old(registry.passwords)
      ensures Filled(old(newWriter)) && old(registry.currentUser).Some? ==>
                var f := old(newWriter);
                && created == Some(User(NextWriterId(old(registry.AllUsers())), f.fullName, Some(f.phone),
                                        Writer, Some(old(registry.currentUser).value.id)))
                && registry.users == Some(old(registry.AllUsers()) + [created.value])
                && registry.passwords == Some(old(registry.passwords).GetOr(map[])[created.value.id := f.password])
                && users == registry.AllUsers() && newWriter == BlankWriterForm
      ensures registry.currentUser == old(registry.currentUser) && registry.savedUser == old(registry.savedUser)
      ensures newAdminPassword == old(newAdminPassword)
    {
      if !Filled(newWriter) {
        return None;
      }
      if registry.currentUser.None? {
        return None;
      }
      var w := registry.CreateWriter(newWriter.fullName, newWriter.phone, newWriter.password,
                                     registry.currentUser.value.id);
      users := registry.AllUsers();
      newWriter := BlankWriterForm;
      return Some(w);
    }

    /** Succeeds only when the registry deletes a writer; then the list is re-read.
        A failure leaves the list and the registry as they were. */
    method HandleDeleteWriter(userId: string) returns (ok: bool)
      modifies this, registry
      ensures var target := FindKey(old(registry.AllUsers()), UserId, userId);
              ok <==> target.Some? && target.value.role == Writer
      ensures ok ==> registry.users == Some(RemoveKey(old(registry.AllUsers()), UserId, userId))
                     && users == registry.AllUsers()
      ensures !ok ==> users == old(users) && registry.users == old(registry.users)
                      && registry.passwords == old(registry.passwords)
      ensures registry.currentUser == old(registry.currentUser) && registry.savedUser == old(registry.savedUser)
      ensures newWriter == old(newWriter) && newAdminPassword == old(newAdminPassword)
    {
      ok := registry.DeleteWriter(userId);
      if ok {
        users := registry.AllUsers();
      }
    }

    /** A password shorter than six characters is refused; with no current user nothing
        happens; otherwise the current user's entry is set, and the field is cleared if
        the registry had a password map. */
    method HandleChangeAdminPassword() returns (outcome: PasswordOutcome)
      modifies this, registry
      ensures |old(newAdminPassword)| < 6 <==> outcome == TooShort
      ensures outcome == Changed <==>
                |old(newAdminPassword)| >= 6 && old(registry.currentUser).Some? && old(registry.passwords).Some?
      ensures outcome == Changed ==>
                registry.passwords == Some(old(registry.passwords).value[old(registry.currentUser).value.id := old(newAdminPassword)])
                && newAdminPassword == ""
      ensures outcome != Changed ==> registry.passwords == old(registry.passwords)
                                     && newAdminPassword == old(newAdminPassword)
      ensures outcome == NoCurrentUser <==> |old(newAdminPassword)| >= 6 && old(registry.currentUser).None?
      ensures registry.users == old(registry.users) && registry.currentUser == old(registry.currentUser)
      ensures registry.savedUser == old(registry.savedUser)
      ensures users == old(users) && newWriter == old(newWriter)
    {
      if newAdminPassword == "" || |newAdminPassword| < 6 {
        return TooShort;
      }
      if registry.currentUser.None? {
        return NoCurrentUser;
      }
      var success := registry.ChangePassword(registry.currentUser.value.id, newAdminPassword);
      if success {
        newAdminPassword := "";
        return Changed;
      }
      return ChangeFailed;
    }

    /** `updateCompanySettings({ [field]: value })`: that field alone changes, and the
        whole settings are persisted. */
    method HandleCompanySettingsChange(field: Field, value: string)
      modifies company
      ensures forall g: Field :: Get(company.settings, g) == if g == field then value else Get(old(company.settings), g)
      ensures company.settings == Merge(old(company.settings), Single(field, value))
      ensures company.saved == Stored(Full(company.settings))
    {
      company.Update(Single(field, value));
    }
  }
}

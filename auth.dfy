/** The user registry of src/contexts/AuthContext.tsx: a list of users and a map from
    user id to password, each kept under its own localStorage key, plus the logged-in
    user (React state) and its persisted copy. A key that was never written is `None`. */
module Auth {
  import opened Wrappers
  import opened Text
  import opened Lists

  datatype Role = Admin | Writer

  datatype User = User(id: string, fullName: string, phone: Option<string>, role: Role,
                       createdBy: Option<string>)

  function UserId(u: User): string { u.id }

  /** The user `initializeUsers` seeds, and its password. */
  const SeedAdmin := User("admin", "Administrator", None, Admin, None)
  const SeedPassword := "admin123"

  const WriterPrefix := "Aam-Wrt-"

  /** `u.id.startsWith('Aam-Wrt-')`. */
  predicate HasWriterPrefix(u: User) { WriterPrefix <= u.id }

  /** `users.filter(u => u.id.startsWith('Aam-Wrt-')).length`. */
  function WriterCount(users: seq<User>): nat
  {
    Count(users, HasWriterPrefix)
  }

  /** `Aam-Wrt-${writerCount + 1}`, as createWriter derives it: a writer id, never the
      administrator's. */
  function NextWriterId(users: seq<User>): (id: string)
    ensures WriterPrefix <= id && id != SeedAdmin.id
  {
    var d := NatToString(WriterCount(users) + 1);
    assert (WriterPrefix + d)[..|WriterPrefix|] == WriterPrefix;
    assert (WriterPrefix + d)[0] != SeedAdmin.id[0];
    WriterPrefix + d
  }

  /** The derived id's suffix reads back as the number of writer ids already present plus
      one. */
  lemma NextWriterIdShape(users: seq<User>)
    ensures ParseInt(NextWriterId(users)[|WriterPrefix|..]) == Some(WriterCount(users) + 1)
  {
    var d := NatToString(WriterCount(users) + 1);
    assert NextWriterId(users)[|WriterPrefix|..] == d;
    ParseIntOfDigits(d, []);
    assert d + [] == d;
  }

  function Wrt(n: nat): User
  {
    User(WriterPrefix + NatToString(n), "Writer", None, Writer, Some("admin"))
  }

  lemma WrtIds()
    ensures Wrt(1).id == "Aam-Wrt-1" && Wrt(2).id == "Aam-Wrt-2"
  {
    assert NatToString(1) == "1" && NatToString(2) == "2";
  }

  /** Deleting writer 1 from the admin and writers 1 and 2 leaves the admin and writer 2. */
  lemma DeleteFirstWriter()
    ensures RemoveKey([SeedAdmin, Wrt(1), Wrt(2)], UserId, Wrt(1).id) == [SeedAdmin, Wrt(2)]
  {
    WrtIds();
    assert SeedAdmin.id[1] != Wrt(1).id[1];
    assert Wrt(2).id[8] != Wrt(1).id[8];
    RemoveMiddle(SeedAdmin, Wrt(1), Wrt(2), UserId, Wrt(1).id);
  }

  /** Writer ids come from a count, so they repeat after a deletion: with writers 1 and 2,
      deleting writer 1 makes the next id `Aam-Wrt-2`, which writer 2 already has. */
  lemma WriterIdCollision()
    ensures var left := RemoveKey([SeedAdmin, Wrt(1), Wrt(2)], UserId, Wrt(1).id);
            left == [SeedAdmin, Wrt(2)] && NextWriterId(left) == Wrt(2).id
  {
    DeleteFirstWriter();
    WrtIds();
    var left := [SeedAdmin, Wrt(2)];
    assert !HasWriterPrefix(SeedAdmin);
    assert HasWriterPrefix(Wrt(2));
    assert Filter(left[1..], HasWriterPrefix) == [Wrt(2)];
    assert WriterCount(left) == 1;
    assert NatToString(2) == "2";
  }

  /** The number a writer id ends in, or 0 for any other id or an unparsable suffix. */
  function WriterSuffix(u: User): int
  {
    if HasWriterPrefix(u) then ParseInt(u.id[|WriterPrefix|..]).GetOr(0) else 0
  }

  /** The largest writer suffix in use, at least 0. */
  function MaxWriterSuffix(users: seq<User>): (m: nat)
    ensures forall i :: 0 <= i < |users| ==> WriterSuffix(users[i]) <= m
  {
    if users == [] then 0
    else
      var rest := MaxWriterSuffix(users[1..]);
      var w := WriterSuffix(users[0]);
      if w > rest then w else rest
  }

  /** The intended derivation: one past the largest suffix in use, which is a writer id
      that no user in the list has. */
  function FreshWriterId(users: seq<User>): (id: string)
    ensures WriterPrefix <= id
    ensures forall i :: 0 <= i < |users| ==> users[i].id != id
  {
    AboveMaxSuffixIsFresh(users, MaxWriterSuffix(users) + 1);
    assert (WriterPrefix + NatToString(MaxWriterSuffix(users) + 1))[..|WriterPrefix|] == WriterPrefix;
    WriterPrefix + NatToString(MaxWriterSuffix(users) + 1)
  }

  /** A writer id built from `n` reads back as `n`. */
  lemma WriterSuffixOfId(u: User, n: nat)
    requires u.id == WriterPrefix + NatToString(n)
    ensures WriterSuffix(u) == n
  {
    var d := NatToString(n);
    assert u.id[|WriterPrefix|..] == d;
    ParseIntOfDigits(d, []);
    assert d + [] == d;
  }

  /** Unlike the count, a suffix above the largest one in use is never an id already in
      the list. */
  lemma AboveMaxSuffixIsFresh(users: seq<User>, n: nat)
    requires n > MaxWriterSuffix(users)
    ensures forall i :: 0 <= i < |users| ==> users[i].id != WriterPrefix + NatToString(n)
  {
    forall i | 0 <= i < |users|
      ensures users[i].id != WriterPrefix + NatToString(n)
    {
      if users[i].id == WriterPrefix + NatToString(n) {
        WriterSuffixOfId(users[i], n);
      }
    }
  }

  class UserRegistry {
    /** `aam_wala_users`. */
    var users: Option<seq<User>>
    /** `aam_wala_passwords`. */
    var passwords: Option<map<string, string>>
    /** `aam_wala_current_user`. */
    var savedUser: Option<User>
    /** The provider's `currentUser` state. */
    var currentUser: Option<User>

    /** The provider before its mount effect, over whatever localStorage holds. */
    constructor (storedUsers: Option<seq<User>>, storedPasswords: Option<map<string, string>>,
                 storedCurrent: Option<User>)
      ensures users == storedUsers && passwords == storedPasswords
      ensures savedUser == storedCurrent && currentUser == None
    {
      users := storedUsers;
      passwords := storedPasswords;
      savedUser := storedCurrent;
      currentUser := None;
    }

    /** `getAllUsers`: the stored list, or `[]` when there is none. */
    function AllUsers(): (r: seq<User>)
      reads this
      ensures users.Some? ==> r == users.value
      ensures users.None? ==> r == []
    {
      users.GetOr([])
    }

    /** The first user with the id `admin`, the one a deletion of `admin` looks at, is
        the seeded administrator. */
    predicate AdminSeeded()
      reads this
    {
      FindKey(AllUsers(), UserId, SeedAdmin.id) == Some(SeedAdmin)
    }

    /** Seeds the administrator and its password, but only when no users list exists. */
    method InitializeUsers()
      modifies this
      ensures old(users).None? ==>
                users == Some([SeedAdmin]) && passwords == Some(map["admin" := SeedPassword])
      ensures old(users).Some? ==> users == old(users) && passwords == old(passwords)
      ensures savedUser == old(savedUser) && currentUser == old(currentUser)
      ensures old(users).None? || old(AdminSeeded()) ==> AdminSeeded()
    {
      if users.None? {
        users := Some([SeedAdmin]);
        passwords := Some(map["admin" := SeedPassword]);
        assert UserId([SeedAdmin][0]) == SeedAdmin.id;
      }
    }

    /** The mount effect: seed, then restore a persisted login. */
    method Mount()
      modifies this
      ensures old(users).None? ==>
                users == Some([SeedAdmin]) && passwords == Some(map["admin" := SeedPassword])
      ensures old(users).Some? ==> users == old(users) && passwords == old(passwords)
      ensures savedUser == old(savedUser)
      ensures currentUser == if savedUser.Some? then savedUser else old(currentUser)
      ensures old(users).None? || old(AdminSeeded()) ==> AdminSeeded()
    {
      InitializeUsers();
      if savedUser.Some? {
        currentUser := savedUser;
      }
    }

    /** Succeeds exactly when both stores exist, some user has that id and the stored
        password for that id is the one given; the first such user becomes the current
        user and is persisted. Otherwise nothing changes. */
    method Login(userId: string, password: string) returns (ok: bool)
      modifies this
      ensures ok <==> users.Some? && passwords.Some?
                      && FindKey(users.value, UserId, userId).Some?
                      && userId in passwords.value && passwords.value[userId] == password
      ensures users == old(users) && passwords == old(passwords)
      ensures ok ==> currentUser == FindKey(users.value, UserId, userId)
                     && savedUser == currentUser && currentUser.value.id == userId
      ensures !ok ==> currentUser == old(currentUser) && savedUser == old(savedUser)
      ensures AdminSeeded() == old(AdminSeeded())
    {
      if users.None? || passwords.None? {
        return false;
      }
      var user := FindKey(users.value, UserId, userId);
      if user.Some? && userId in passwords.value && passwords.value[userId] == password {
        currentUser := user;
        savedUser := user;
        return true;
      }
      return false;
    }

    method Logout()
      modifies this
      ensures currentUser == None && savedUser == None
      ensures users == old(users) && passwords == old(passwords)
      ensures AdminSeeded() == old(AdminSeeded())
    {
      currentUser := None;
      savedUser := None;
    }

    /** Appends one writer whose id comes from the count of writer ids, stores its
        password under that id, and returns it. An absent users list counts as empty and
        an absent password map as `{}`. */
    method CreateWriter(fullName: string, phone: string, password: string, createdBy: string)
      returns (w: User)
      modifies this
      ensures w == User(NextWriterId(old(AllUsers())), fullName, Some(phone), Writer, Some(createdBy))
      ensures users == Some(old(AllUsers()) + [w])
      ensures passwords == Some(old(passwords).GetOr(map[])[w.id := password])
      ensures savedUser == old(savedUser) && currentUser == old(currentUser)
      ensures old(AdminSeeded()) ==> AdminSeeded()
    {
      var all := AllUsers();
      w := User(NextWriterId(all), fullName, Some(phone), Writer, Some(createdBy));
      AdminSurvivesCreate(all, w);
      var pw := passwords.GetOr(map[]);
      users, passwords := Some(all + [w]), Some(pw[w.id := password]);
    }

    /** Deletes only when the first user with that id is a writer; then every user with
        that id goes, and so does its password entry if a password map exists. */
    method DeleteWriter(userId: string) returns (ok: bool)
      modifies this
      ensures var target := FindKey(old(AllUsers()), UserId, userId);
              ok <==> target.Some? && target.value.role == Writer
      ensures ok ==> users == Some(RemoveKey(old(AllUsers()), UserId, userId))
      ensures ok ==> passwords == if old(passwords).Some?
                                  then Some(old(passwords).value - {userId}) else None
      ensures !ok ==> users == old(users) && passwords == old(passwords)
      ensures savedUser == old(savedUser) && currentUser == old(currentUser)
      ensures old(AdminSeeded()) ==> AdminSeeded() && (userId == SeedAdmin.id ==> !ok)
    {
      var all := AllUsers();
      var target := FindKey(all, UserId, userId);
      if target.None? || target.value.role != Writer {
        return false;
      }
      AdminSurvivesDelete(all, userId);
      users := Some(RemoveKey(all, UserId, userId));
      if passwords.Some? {
        passwords := Some(passwords.value - {userId});
      }
      return true;
    }

    /** Fails when no password map exists; otherwise sets the entry for `userId`, whether
        or not such a user exists. */
    method ChangePassword(userId: string, newPassword: string) returns (ok: bool)
      modifies this
      ensures ok == old(passwords).Some?
      ensures passwords == if ok then Some(old(passwords).value[userId := newPassword])
                           else old(passwords)
      ensures users == old(users) && savedUser == old(savedUser) && currentUser == old(currentUser)
      ensures AdminSeeded() == old(AdminSeeded())
    {
      if passwords.None? {
        return false;
      }
      passwords := Some(passwords.value[userId := newPassword]);
      return true;
    }

    /** `!!currentUser`. */
    predicate IsAuthenticated()
      reads this
    {
      currentUser.Some?
    }

    /** `currentUser?.role === 'admin'`: only a logged-in user is an admin. */
    predicate IsAdmin()
      reads this
      ensures IsAdmin() ==> IsAuthenticated()
    {
      currentUser.Some? && currentUser.value.role == Admin
    }

    /** `currentUser?.role === 'writer'`: only a logged-in user is a writer, and never an
        admin as well. */
    predicate IsWriter()
      reads this
      ensures IsWriter() ==> IsAuthenticated() && !IsAdmin()
    {
      currentUser.Some? && currentUser.value.role == Writer
    }

    /** A logged-in user is exactly one of admin and writer. */
    lemma RolesPartition()
      ensures IsAuthenticated() <==> IsAdmin() || IsWriter()
      ensures !(IsAdmin() && IsWriter())
    {
    }
  }

  /** An appended user leaves the seeded administrator first among the `admin` ids. */
  lemma AdminSurvivesCreate(all: seq<User>, w: User)
    ensures FindKey(all, UserId, SeedAdmin.id) == Some(SeedAdmin) ==>
              FindKey(all + [w], UserId, SeedAdmin.id) == Some(SeedAdmin)
  {
    if FindKey(all, UserId, SeedAdmin.id).Some? {
      FindKeyAfterAppend(all, w, UserId, SeedAdmin.id);
    }
  }

  /** A deletion that finds a writer first never targets the seeded administrator, and
      leaves it first among the `admin` ids. */
  lemma AdminSurvivesDelete(all: seq<User>, userId: string)
    requires FindKey(all, UserId, userId).Some? && FindKey(all, UserId, userId).value.role == Writer
    ensures FindKey(all, UserId, SeedAdmin.id) == Some(SeedAdmin) ==>
              userId != SeedAdmin.id
              && FindKey(RemoveKey(all, UserId, userId), UserId, SeedAdmin.id) == Some(SeedAdmin)
  {
    if userId != SeedAdmin.id {
      FindKeyAfterRemove(all, UserId, SeedAdmin.id, userId);
    }
  }

  /** One call into the registry. */
  datatype RegistryCall =
    | LoginCall(userId: string, password: string)
    | LogoutCall
    | CreateWriterCall(fullName: string, phone: string, password: string, createdBy: string)
    | DeleteWriterCall(userId: string)
    | ChangePasswordCall(userId: string, newPassword: string)

  /** Makes one call; the administrator stays first among the `admin` ids. */
  method Apply(r: UserRegistry, call: RegistryCall)
    requires r.AdminSeeded()
    modifies r
    ensures r.AdminSeeded()
  {
    match call
    case LoginCall(u, p) =>
      var ok := r.Login(u, p);
    case LogoutCall =>
      r.Logout();
    case CreateWriterCall(n, ph, p, c) =>
      var w := r.CreateWriter(n, ph, p, c);
    case DeleteWriterCall(u) =>
      var ok := r.DeleteWriter(u);
    case ChangePasswordCall(u, p) =>
      var ok := r.ChangePassword(u, p);
  }

  /** The administrator can never be deleted. Start from a store with no users list, or
      one whose first `admin` is the seeded administrator; mount the provider and make any
      sequence of calls. The first `admin` stays the administrator throughout, so a final
      deletion of `admin` is refused. */
  method AdminNeverDeleted(storedUsers: Option<seq<User>>, storedPasswords: Option<map<string, string>>,
                           storedCurrent: Option<User>, calls: seq<RegistryCall>) returns (deleted: bool)
    requires storedUsers.None? || FindKey(storedUsers.value, UserId, SeedAdmin.id) == Some(SeedAdmin)
    ensures !deleted
  {
    var r := new UserRegistry(storedUsers, storedPasswords, storedCurrent);
    r.Mount();
    var k := 0;
    while k < |calls|
      invariant 0 <= k <= |calls|
      invariant r.AdminSeeded()
    {
      Apply(r, calls[k]);
      k := k + 1;
    }
    deleted := r.DeleteWriter(SeedAdmin.id);
  }
}

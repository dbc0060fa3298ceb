/** The session store (`useAuthState` in src/hooks/useAuth.ts): the
    `(user, isAuthenticated, isLoading)` record and the `auth_user` and
    `auth_token` keys it keeps in storage. */
module Auth {
  import opened Basics
  import opened Text
  import opened Types
  import opened Storage

  const UserKey := "auth_user"
  const TokenKey := "auth_token"
  const DemoPassword := "password"

  const SignedOut := AuthState(None, false, false)

  const AdminEmail := "admin@example.com"
  const UserEmail := "user@example.com"
  const AdminAvatar := "https://images.pexels.com/photos/2379004/pexels-photo-2379004.jpeg?auto=compress&cs=tinysrgb&w=150"
  const UserAvatar := "https://images.pexels.com/photos/1239291/pexels-photo-1239291.jpeg?auto=compress&cs=tinysrgb&w=150"

  /** The demo administrator; `stamp` stands for the creation time `login` gives it. */
  function DemoAdmin(stamp: string): User {
    User("1", "Admin User", AdminEmail, AdminRole, Some(AdminAvatar),
         Some("+62812345678"), Some("Jakarta, Indonesia"), stamp, stamp, true)
  }

  /** The demo customer. */
  function DemoCustomer(stamp: string): User {
    User("2", "Regular User", UserEmail, UserRole, Some(UserAvatar),
         Some("+62812345679"), Some("Bandung, Indonesia"), stamp, stamp, true)
  }

  /** The two demo accounts, in the order `login` searches them. */
  function DemoUsers(stamp: string): seq<User> {
    [DemoAdmin(stamp), DemoCustomer(stamp)]
  }

  /** `users.find(u => u.email === email)`: the first user with that e-mail, if any. */
  function FindByEmail(users: seq<User>, email: string): (found: Option<User>)
    ensures found.None? <==> forall i :: 0 <= i < |users| ==> users[i].email != email
    ensures found.Some? ==> exists i :: 0 <= i < |users| && users[i] == found.value
                                        && (forall k :: 0 <= k < i ==> users[k].email != email)
    ensures found.Some? ==> found.value.email == email
  {
    if users == [] then None
    else if users[0].email == email then Some(users[0])
    else
      var rest := FindByEmail(users[1..], email);
      if rest.Some? then
        var i :| 0 <= i < |users[1..]| && users[1..][i] == rest.value
                 && (forall k :: 0 <= k < i ==> users[1..][k].email != email);
        assert users[i + 1] == rest.value;
        rest
      else rest
  }

  /** Exactly the two demo e-mails sign in: the admin address as the
      administrator, the user address as the customer. */
  lemma DemoAccounts(stamp: string, email: string)
    ensures FindByEmail(DemoUsers(stamp), email).Some? <==> email == AdminEmail || email == UserEmail
    ensures email == AdminEmail ==> FindByEmail(DemoUsers(stamp), email) == Some(DemoAdmin(stamp))
    ensures email == UserEmail ==> FindByEmail(DemoUsers(stamp), email) == Some(DemoCustomer(stamp))
    ensures DemoAdmin(stamp).role == AdminRole && DemoCustomer(stamp).role == UserRole
  {
    var users := DemoUsers(stamp);
    assert AdminEmail != UserEmail by {
      assert AdminEmail[0] != UserEmail[0];
    }
    assert users[1..] == [DemoCustomer(stamp)];
    assert users[1..][1..] == [];
  }

  /** `'demo_token_' + Date.now()` */
  function Token(millis: nat): string {
    "demo_token_" + NatToString(millis)
  }

  /** A token is never empty, so a stored token always counts as present. */
  lemma TokenNotEmpty(millis: nat)
    ensures Text(Token(millis)) != Text("")
  {
    assert |Token(millis)| > 0;
  }

  /** The user `register` creates: always a `user`, identified by the clock
      reading `idMillis`. */
  function RegisteredUser(data: RegisterFormData, stamp: string, idMillis: nat): (u: User)
    ensures u.role == UserRole && u.isActive
    ensures u.name == data.name && u.email == data.email && u.phone == Some(data.phone)
    ensures u.avatar == None && u.address == None
  {
    User(NatToString(idMillis), data.name, data.email, UserRole, None, Some(data.phone), None, stamp, stamp, true)
  }

  /** `Partial<User>`: the fields an update supplies. */
  datatype UserPatch = UserPatch(
    id: Option<string>,
    name: Option<string>,
    email: Option<string>,
    role: Option<Role>,
    avatar: Option<Option<string>>,
    phone: Option<Option<string>>,
    address: Option<Option<string>>,
    createdAt: Option<string>,
    updatedAt: Option<string>,
    isActive: Option<bool>)

  const EmptyPatch := UserPatch(None, None, None, None, None, None, None, None, None, None)

  /** `{ ...user, ...userData }` */
  function Patched(u: User, p: UserPatch): User {
    User(p.id.GetOr(u.id), p.name.GetOr(u.name), p.email.GetOr(u.email), p.role.GetOr(u.role),
         p.avatar.GetOr(u.avatar), p.phone.GetOr(u.phone), p.address.GetOr(u.address),
         p.createdAt.GetOr(u.createdAt), p.updatedAt.GetOr(u.updatedAt), p.isActive.GetOr(u.isActive))
  }

  /** An empty update changes nothing, the same update twice is the update once,
      a field the update leaves out keeps its value, and a field it supplies
      takes the supplied value. */
  lemma PatchLaws(u: User, p: UserPatch)
    ensures Patched(u, EmptyPatch) == u
    ensures Patched(Patched(u, p), p) == Patched(u, p)
    ensures p.id.None? ==> Patched(u, p).id == u.id
    ensures p.name.None? ==> Patched(u, p).name == u.name
    ensures p.email.None? ==> Patched(u, p).email == u.email
    ensures p.role.None? ==> Patched(u, p).role == u.role
    ensures p.avatar.None? ==> Patched(u, p).avatar == u.avatar
    ensures p.phone.None? ==> Patched(u, p).phone == u.phone
    ensures p.address.None? ==> Patched(u, p).address == u.address
    ensures p.createdAt.None? ==> Patched(u, p).createdAt == u.createdAt
    ensures p.updatedAt.None? ==> Patched(u, p).updatedAt == u.updatedAt
    ensures p.isActive.None? ==> Patched(u, p).isActive == u.isActive
    ensures p.id.Some? ==> Patched(u, p).id == p.id.value
    ensures p.name.Some? ==> Patched(u, p).name == p.name.value
    ensures p.email.Some? ==> Patched(u, p).email == p.email.value
    ensures p.role.Some? ==> Patched(u, p).role == p.role.value
    ensures p.avatar.Some? ==> Patched(u, p).avatar == p.avatar.value
    ensures p.phone.Some? ==> Patched(u, p).phone == p.phone.value
    ensures p.address.Some? ==> Patched(u, p).address == p.address.value
    ensures p.createdAt.Some? ==> Patched(u, p).createdAt == p.createdAt.value
    ensures p.updatedAt.Some? ==> Patched(u, p).updatedAt == p.updatedAt.value
    ensures p.isActive.Some? ==> Patched(u, p).isActive == p.isActive.value
  {
  }

  /** The session: the record the hook returns and the store it persists to. */
  class Session {
    var state: AuthState
    const store: Store

    /** Signed in exactly when there is a user, and then `auth_user` holds that
        user and a token is stored. */
    ghost predicate Valid()
      reads this, store
    {
      && (state.isAuthenticated <==> state.user.Some?)
      && (state.user.Some? ==>
            UserKey in store.entries && store.entries[UserKey] == UserJson(state.user.value)
            && IsPresent(store.entries, TokenKey))
    }

    /** `useState({ user: null, isAuthenticated: false, isLoading: true })` */
    constructor (store: Store)
      ensures this.store == store && state == AuthState(None, false, true) && Valid()
    {
      this.store := store;
      state := AuthState(None, false, true);
    }

    /** The mount effect. A stored user and token sign the user back in; a
        stored user that does not decode clears both keys; without both keys the
        session is signed out. Loading ends in every case. */
    method Restore()
      modifies this, store
      ensures var restorable := IsPresent(old(store.entries), UserKey) && IsPresent(old(store.entries), TokenKey);
              && (restorable && old(store.entries)[UserKey].UserJson? ==>
                    state == AuthState(Some(old(store.entries)[UserKey].user), true, false)
                    && store.entries == old(store.entries))
              && (restorable && !old(store.entries)[UserKey].UserJson? ==>
                    state == SignedOut && store.entries == old(store.entries) - {UserKey} - {TokenKey})
              && (!restorable ==> state == SignedOut && store.entries == old(store.entries))
      ensures !state.isLoading && Valid()
    {
      if store.Present(UserKey) && store.Present(TokenKey) {
        match store.entries[UserKey]
        case UserJson(user) =>
          state := AuthState(Some(user), true, false);
        case _ =>
          store.RemoveItem(UserKey);
          store.RemoveItem(TokenKey);
          state := SignedOut;
      } else {
        state := SignedOut;
      }
    }

    /** `login`: a demo e-mail with the demo password signs in and stores the
        user and a fresh token; anything else signs out in memory and leaves
        storage alone. */
    method Login(email: string, password: string, stamp: string, millis: nat) returns (ok: bool)
      modifies this, store
      ensures ok <==> FindByEmail(DemoUsers(stamp), email).Some? && password == DemoPassword
      ensures ok ==> state == AuthState(FindByEmail(DemoUsers(stamp), email), true, false)
                     && store.entries == old(store.entries)[UserKey := UserJson(FindByEmail(DemoUsers(stamp), email).value)]
                                                           [TokenKey := Text(Token(millis))]
      ensures !ok ==> state == SignedOut && store.entries == old(store.entries)
      ensures Valid()
    {
      var user := FindByEmail(DemoUsers(stamp), email);
      if user.Some? && password == DemoPassword {
        var token := Token(millis);
        TokenNotEmpty(millis);
        store.SetItem(UserKey, UserJson(user.value));
        store.SetItem(TokenKey, Text(token));
        state := AuthState(user, true, false);
        return true;
      } else {
        state := SignedOut;
        return false;
      }
    }

    /** `register`: always signs in a new `user` and stores it with a fresh
        token. The id and the token come from two separate clock readings. */
    method Register(data: RegisterFormData, stamp: string, idMillis: nat, tokenMillis: nat) returns (ok: bool)
      modifies this, store
      ensures ok && state == AuthState(Some(RegisteredUser(data, stamp, idMillis)), true, false)
      ensures store.entries == old(store.entries)[UserKey := UserJson(RegisteredUser(data, stamp, idMillis))]
                                                 [TokenKey := Text(Token(tokenMillis))]
      ensures Valid()
    {
      var newUser := RegisteredUser(data, stamp, idMillis);
      var token := Token(tokenMillis);
      TokenNotEmpty(tokenMillis);
      store.SetItem(UserKey, UserJson(newUser));
      store.SetItem(TokenKey, Text(token));
      state := AuthState(Some(newUser), true, false);
      return true;
    }

    /** `logout`: both keys removed and signed out, whatever the state was. */
    method Logout()
      modifies this, store
      ensures state == SignedOut
      ensures store.entries == old(store.entries) - {UserKey} - {TokenKey}
      ensures Valid()
    {
      store.RemoveItem(UserKey);
      store.RemoveItem(TokenKey);
      state := SignedOut;
    }

    /** `updateUser`: without a user nothing happens; otherwise the fields are
        merged over the user, stored, and the flags are kept. */
    method UpdateUser(patch: UserPatch)
      modifies this, store
      ensures old(state.user).None? ==> state == old(state) && store.entries == old(store.entries)
      ensures old(state.user).Some? ==>
                state == old(state).(user := Some(Patched(old(state.user).value, patch)))
                && store.entries == old(store.entries)[UserKey := UserJson(Patched(old(state.user).value, patch))]
      ensures old(Valid()) ==> Valid()
    {
      if state.user.Some? {
        var updatedUser := Patched(state.user.value, patch);
        store.SetItem(UserKey, UserJson(updatedUser));
        state := state.(user := Some(updatedUser));
      }
    }
  }
}

/**
 * The mock authentication state (`AuthProvider` in
 * src/context/AuthContext.tsx): the signed-in user, a loading flag, and the
 * `user` key of the browser store. Login accepts one fixed credential pair;
 * registration always succeeds; logout forgets the user. The clock used
 * for a new user's id is passed in.
 */
module Auth {
  import opened Records
  import opened Strings
  import opened Storage

  const DemoEmail: string := "demo@example.com"
  const DemoPassword: string := "password"
  const DemoUser: AuthUser := AuthUser("user-1", DemoEmail, "Demo User")
  const UserIdPrefix: string := "user-"

  /** The user a login attempt yields: the demo user for the demo pair,
      nobody for anything else. */
  function LoginResult(email: string, password: string): (r: Option<AuthUser>)
    ensures r.Some? <==> email == DemoEmail && password == DemoPassword
    ensures r.Some? ==> r.value == DemoUser && r.value.email == email
  {
    if email == DemoEmail && password == DemoPassword then Some(DemoUser) else None
  }

  /** The user a registration creates at time `clock`: `user-` and the
      clock's decimal digits, with the given email and name. */
  function RegisteredUser(name: string, email: string, clock: nat): (u: AuthUser)
    ensures u.email == email && u.name == name
    ensures |u.id| > |UserIdPrefix| && u.id[..|UserIdPrefix|] == UserIdPrefix
    ensures var digits := u.id[|UserIdPrefix|..];
      (forall i :: 0 <= i < |digits| ==> IsDigit(digits[i])) && DigitsValue(digits) == clock
  {
    var digits := NatToString(clock);
    NatToStringRoundTrip(clock);
    assert (UserIdPrefix + digits)[|UserIdPrefix|..] == digits;
    AuthUser(UserIdPrefix + digits, email, name)
  }

  /** Registrations at different instants get different ids. */
  lemma RegisteredIdsDiffer(name1: string, email1: string, clock1: nat, name2: string, email2: string, clock2: nat)
    requires clock1 != clock2
    ensures RegisteredUser(name1, email1, clock1).id != RegisteredUser(name2, email2, clock2).id
  {
    var id1 := RegisteredUser(name1, email1, clock1).id;
    var id2 := RegisteredUser(name2, email2, clock2).id;
    assert DigitsValue(id1[|UserIdPrefix|..]) != DigitsValue(id2[|UserIdPrefix|..]);
    assert id1[|UserIdPrefix|..] != id2[|UserIdPrefix|..];
  }

  /** A registered user's id never collides with the demo user's when the
      clock has more than one digit. */
  lemma RegisteredIdIsNotDemo(name: string, email: string, clock: nat)
    requires clock >= 10
    ensures RegisteredUser(name, email, clock).id != DemoUser.id
  {
    var id := RegisteredUser(name, email, clock).id;
    assert DemoUser.id[|UserIdPrefix|..] == "1";
    assert DigitsValue("1") == 1;
    assert id[|UserIdPrefix|..] != DemoUser.id[|UserIdPrefix|..];
  }

  class AuthProvider {
    const store: LocalStorage
    var user: Option<AuthUser>
    var isLoading: bool

    /** The user in memory and the `user` key of the store agree. */
    ghost predicate Synced()
      reads this, store
    {
      && (user.Some? <==> UserKey in store.entries)
      && (user.Some? ==> store.entries[UserKey] == UserRecord(user.value))
    }

    /** The first render: nobody signed in, still loading. */
    constructor (store: LocalStorage)
      ensures this.store == store
      ensures user.None? && isLoading
    {
      this.store := store;
      user := None;
      isLoading := true;
    }

    /** `isAuthenticated: !!user`: while memory and store agree, signed in
        exactly when the store holds a user. */
    function IsAuthenticated(): (b: bool)
      reads this, store
      ensures b <==> user.Some?
      ensures Synced() ==> (b <==> UserKey in store.entries)
    {
      user.Some?
    }

    /** The mount effect: adopt the stored user if there is one, then stop
        loading. The store is only read. */
    method Mount()
      requires store.Valid()
      modifies this
      ensures UserKey in store.entries ==> user == Some(store.entries[UserKey].user)
      ensures UserKey !in store.entries ==> user == old(user)
      ensures !isLoading
      ensures old(user.None?) ==> Synced()
    {
      var stored := store.GetItem(UserKey);
      if stored.Some? {
        user := Some(stored.value.user);
      }
      isLoading := false;
    }

    /** `login(email, password)`, the pause left out: the demo pair signs
        the demo user in and stores it; any other pair changes neither the
        user nor the store. Loading ends either way. */
    method Login(email: string, password: string)
      modifies this, store
      ensures LoginResult(email, password).Some? ==>
        user == LoginResult(email, password) &&
        store.entries == old(store.entries)[UserKey := UserRecord(DemoUser)]
      ensures LoginResult(email, password).None? ==>
        user == old(user) && store.entries == old(store.entries)
      ensures !isLoading
      ensures old(Synced()) ==> Synced()
      ensures LoginResult(email, password).Some? ==> Synced()
      ensures old(store.Valid()) ==> store.Valid()
    {
      isLoading := true;
      var result := LoginResult(email, password);
      if result.Some? {
        user := result;
        store.SetItem(UserKey, UserRecord(result.value));
      }
      isLoading := false;
    }

    /** `register(name, email, password)`, the pause left out: always signs
        the new user in and stores it; the password is not used. */
    method Register(name: string, email: string, password: string, clock: nat)
      modifies this, store
      ensures user == Some(RegisteredUser(name, email, clock))
      ensures store.entries == old(store.entries)[UserKey := UserRecord(user.value)]
      ensures !isLoading
      ensures Synced()
      ensures old(store.Valid()) ==> store.Valid()
    {
      isLoading := true;
      var newUser := RegisteredUser(name, email, clock);
      user := Some(newUser);
      store.SetItem(UserKey, UserRecord(newUser));
      isLoading := false;
    }

    /** `logout()`: forget the user and remove only the `user` key. */
    method Logout()
      modifies this, store
      ensures user.None? && !IsAuthenticated()
      ensures isLoading == old(isLoading)
      ensures store.entries == old(store.entries) - {UserKey}
      ensures Synced()
      ensures old(store.Valid()) ==> store.Valid()
    {
      user := None;
      store.RemoveItem(UserKey);
    }
  }
}

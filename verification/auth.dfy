/** The authentication store (src/stores/auth.ts): the signed-in user, a simulated login
    that accepts any credentials, logout, and restoring the user from the `choukette_user`
    key of local storage. */
module Auth {
  import opened Wrappers
  import opened Entities
  import opened Storage

  /** The profile the simulated login attaches to a bakery account. */
  function MockBakeryProfile(createdAt: string): Profile {
    BakeryProfile("Boulangerie Martin", createdAt)
  }

  /** The profile the simulated login attaches to a professional account. */
  function MockProfessionalProfile(createdAt: string): Profile {
    ProfessionalProfile("Jean", "Dupont", 8, 25, AutoEntrepreneur, createdAt)
  }

  /** The user `login` builds; `id` is the random identifier and `createdAt` the current
      instant, both drawn by the caller. */
  function MockUser(id: string, email: string, userType: UserType, createdAt: string): User {
    if userType == BakeryAccount then
      User(id, email, "Boulangerie Martin", BakeryAccount, Some("@/assets/boulangeries/boulangerie1.jpeg"),
           MockBakeryProfile(createdAt))
    else
      User(id, email, "Jean Dupont", ProfessionalAccount, Some("@/assets/boulangers/boulanger1.jpeg"),
           MockProfessionalProfile(createdAt))
  }

  /** The simulated user carries the given email and type; the display name and the shape of
      the profile follow the type. */
  lemma MockUserSpec(id: string, email: string, userType: UserType, createdAt: string)
    ensures var u := MockUser(id, email, userType, createdAt);
      && u.id == id && u.email == email && u.userType == userType
      && (userType == BakeryAccount <==> u.profile.BakeryProfile?)
      && (userType == BakeryAccount ==> u.name == "Boulangerie Martin" && u.profile.businessName == u.name)
      && (userType == ProfessionalAccount ==>
            u.name == "Jean Dupont" && u.name == u.profile.firstName + " " + u.profile.lastName)
      && u.profile.createdAt == createdAt
  {
  }

  // ---------------------------------------------------------------------------
  // Restoring the session

  /** Reading `choukette_user`: nothing usable there, text that does not parse into a user,
      or the user. */
  function StoredUser(entries: map<string, Raw>): (r: Parsed<User>)
    ensures r.NotFound? <==> Lookup(entries, USER_KEY).None?
  {
    match Lookup(entries, USER_KEY)
    case None => NotFound
    case Some(Encoded(UserJson(u))) => Value(u)
    case Some(_) => Corrupt
  }

  /** `initializeAuth`: adopt the stored user; drop a stored value that does not parse. */
  function InitAuthStep(user: Option<User>, entries: map<string, Raw>): (Option<User>, map<string, Raw>) {
    match StoredUser(entries)
    case NotFound => (user, entries)
    case Value(u) => (Some(u), entries)
    case Corrupt => (user, entries - {USER_KEY})
  }

  /** With nothing stored nothing changes; a stored user becomes the user; a value that does not
      parse is removed and the user is left as it was. Running it twice is running it once. */
  lemma InitAuthSpec(user: Option<User>, entries: map<string, Raw>)
    ensures StoredUser(entries).NotFound? ==> InitAuthStep(user, entries) == (user, entries)
    ensures StoredUser(entries).Value? ==> InitAuthStep(user, entries) == (Some(StoredUser(entries).value), entries)
    ensures StoredUser(entries).Corrupt? ==> InitAuthStep(user, entries) == (user, entries - {USER_KEY})
    ensures var (u1, e1) := InitAuthStep(user, entries); InitAuthStep(u1, e1) == (u1, e1)
  {
  }

  /** A user stored by `login` is what a fresh store restores. */
  lemma LoginThenReload(entries: map<string, Raw>, id: string, email: string, userType: UserType, createdAt: string)
    ensures var u := MockUser(id, email, userType, createdAt);
      InitAuthStep(None, entries[USER_KEY := Encoded(UserJson(u))]).0 == Some(u)
  {
  }

  /** After `logout` a fresh store stays signed out and storage is left as it is. */
  lemma LogoutThenReload(entries: map<string, Raw>)
    ensures InitAuthStep(None, entries - {USER_KEY}) == (None, entries - {USER_KEY})
  {
  }

  // ---------------------------------------------------------------------------
  // The store

  class AuthStore {
    var user: Option<User>
    const storage: LocalStorage

    /** Store creation: signed out (`initializeAuth` is called separately). */
    constructor (storage: LocalStorage)
      ensures this.storage == storage && user == None
    {
      user := None;
      this.storage := storage;
    }

    /** `isAuthenticated`: there is a user. */
    function IsAuthenticated(): bool
      reads this
    {
      user.Some?
    }

    /** `userType`: the user's type, undefined when signed out. */
    function CurrentUserType(): (t: Option<UserType>)
      reads this
      ensures t.Some? <==> IsAuthenticated()
      ensures t.Some? ==> t.value == user.value.userType
    {
      if user.Some? then Some(user.value.userType) else None
    }

    /** `login`: any credentials succeed; the password is not looked at. The simulated user
        becomes the user and is stored under `choukette_user`. */
    method Login(email: string, password: string, userType: UserType, id: string, createdAt: string)
      returns (result: User)
      modifies this, storage
      ensures result == MockUser(id, email, userType, createdAt)
      ensures user == Some(result) && IsAuthenticated() && CurrentUserType() == Some(userType)
      ensures storage.entries == old(storage.entries)[USER_KEY := Encoded(UserJson(result))]
    {
      var mockUser := MockUser(id, email, userType, createdAt);
      user := Some(mockUser);
      storage.SetItem(USER_KEY, Encoded(UserJson(mockUser)));
      return mockUser;
    }

    /** `logout`: no user, and only `choukette_user` is removed. */
    method Logout()
      modifies this, storage
      ensures user == None && !IsAuthenticated()
      ensures storage.entries == old(storage.entries) - {USER_KEY}
    {
      user := None;
      storage.RemoveItem(USER_KEY);
    }

    method InitializeAuth()
      modifies this, storage
      ensures (user, storage.entries) == InitAuthStep(old(user), old(storage.entries))
    {
      var savedUser := storage.GetItem(USER_KEY);
      if savedUser.Some? && Truthy(savedUser.value) {
        match savedUser.value
        case Encoded(UserJson(u)) =>
          user := Some(u);
        case _ =>
          storage.RemoveItem(USER_KEY);
      }
    }
  }
}

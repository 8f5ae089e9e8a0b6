/** The User record of the document store: required and unique fields, optional
    credentials, a free-form profile, permission flags and the permanent personal
    contact token. */
module UserModel {
  import opened Wrappers

  /** A user's document id (a Mongo ObjectId in the source). */
  type UserId = nat

  /** Permission flags: stored and shown, but consulted by no other operation. */
  datatype Permissions = Permissions(googleContacts: bool, googleCalendar: bool, notifications: bool)

  const DEFAULT_PERMISSIONS := Permissions(false, false, false)

  datatype SocialLinks = SocialLinks(linkedin: Option<string>, twitter: Option<string>, instagram: Option<string>)

  /** Profile fields; dates are milliseconds since the epoch. No field is required. */
  datatype Profile = Profile(
    birthday: Option<int>,
    anniversary: Option<int>,
    spouseName: Option<string>,
    spouseBirthday: Option<int>,
    companyName: Option<string>,
    incorporationDate: Option<int>,
    officeAddress: Option<string>,
    socialLinks: SocialLinks)

  const EMPTY_PROFILE := Profile(None, None, None, None, None, None, None, SocialLinks(None, None, None))

  /** `password` is absent for accounts that only sign in through Google, and
      `googleId` is absent for local accounts; both are optional. The personal
      contact token has no expiry field. */
  datatype User = User(
    googleId: Option<string>,
    name: string,
    email: string,
    password: Option<string>,
    profile: Profile,
    permissions: Permissions,
    personalContactToken: Option<string>)

  /** Building a user document: `name` and `email` are required (an empty string
      fails a required String path), every permission flag starts false and no
      personal contact token exists yet. */
  function NewUser(name: string, email: string, password: Option<string>, googleId: Option<string>): (r: Option<User>)
    ensures r.Some? <==> name != "" && email != ""
    ensures r.Some? ==> r.value.name == name && r.value.email == email
                        && r.value.password == password && r.value.googleId == googleId
    ensures r.Some? ==> r.value.permissions == DEFAULT_PERMISSIONS
                        && !r.value.permissions.googleContacts
                        && !r.value.permissions.googleCalendar
                        && !r.value.permissions.notifications
                        && r.value.personalContactToken.None?
  {
    if name == "" || email == "" then None
    else Some(User(googleId, name, email, password, EMPTY_PROFILE, DEFAULT_PERMISSIONS, None))
  }

  /** The unique index on `email`. */
  ghost predicate EmailsUnique(users: map<UserId, User>) {
    forall a, b :: a in users && b in users && users[a].email == users[b].email ==> a == b
  }

  /** Inserting a user document under a fresh id: the unique index refuses a
      duplicate email (E11000), and otherwise the collection gains exactly that
      document and stays duplicate-free. */
  function InsertUser(users: map<UserId, User>, id: UserId, u: User): (r: Option<map<UserId, User>>)
    requires id !in users
    ensures r.Some? <==> forall v :: v in users ==> users[v].email != u.email
    ensures r.Some? ==> r.value.Keys == users.Keys + {id} && r.value[id] == u
                        && forall v :: v in users ==> r.value[v] == users[v]
    ensures r.Some? && EmailsUnique(users) ==> EmailsUnique(r.value)
  {
    if exists v :: v in users && users[v].email == u.email then None
    else Some(users[id := u])
  }
}

/** The user handlers: registration with a unique phone number, login with
    its ordered failures, password change, profile update and the
    role-filtered user listing. Password hashing and comparison belong to the
    user model and the bcrypt library; comparison is the parameter `matches`
    (candidate password, stored password). */
module AuthController {
  import opened Common
  import opened ImageUrl

  /** A stored user. The user schema is not part of this model, so a field the
      registering request left out stays absent (`None`), and `password` holds
      whatever the user model stores for the password given. */
  datatype User = User(
    phoneNumber: Option<string>,
    password: Option<string>,
    role: Option<string>,
    email: Option<string>,
    name: Option<string>,
    image: Option<string>)

  /** A user as `select('-password')` returns it. */
  datatype PublicUser = PublicUser(
    phoneNumber: Option<string>,
    role: Option<string>,
    email: Option<string>,
    name: Option<string>,
    image: Option<string>)

  function WithoutPassword(u: User): PublicUser {
    PublicUser(u.phoneNumber, u.role, u.email, u.name, u.image)
  }

  /** What `getUser` answers: the whole listing (for an Admin) or one user. */
  datatype UserView = AllUsers(users: map<Id, PublicUser>) | OneUser(id: Id, user: PublicUser)

  /** No two users share a phone number. */
  ghost predicate PhonesUnique(users: map<Id, User>) {
    forall a, b :: a in users && b in users && users[a].phoneNumber == users[b].phoneNumber ==> a == b
  }

  /** `User.findOne({ phoneNumber })` finds a document. */
  predicate PhoneTaken(users: map<Id, User>, phone: Option<string>) {
    exists id :: id in users && users[id].phoneNumber == phone
  }

  /** `bcrypt.compare(candidate, stored)`, which refuses (throws on) an
      argument that is not a string. */
  function Compare(candidate: Option<string>, stored: Option<string>, matches: (string, string) -> bool): (r: Option<bool>)
    ensures r.Some? <==> candidate.Some? && stored.Some?
  {
    if candidate.Some? && stored.Some? then Some(matches(candidate.value, stored.value)) else None
  }

  /** The user collection. */
  class UserStore {
    var users: map<Id, User>

    ghost predicate Valid()
      reads this
    {
      PhonesUnique(users)
    }

    constructor ()
      ensures Valid() && users == map[]
    {
      users := map[];
    }

    /** `User.findOne({ phoneNumber })`: the one user with that phone number. */
    function FindByPhone(phone: Option<string>): (r: Option<Id>)
      reads this
      requires Valid()
      ensures r.Some? <==> PhoneTaken(users, phone)
      ensures r.Some? ==> r.value in users && users[r.value].phoneNumber == phone
    {
      if PhoneTaken(users, phone) then
        var id :| id in users && users[id].phoneNumber == phone; Some(id)
      else None
    }

    /** `register`: a phone number already in use is rejected and nothing is
        stored; otherwise exactly one user with the given phone number,
        password and role is added, and the token carries its id and role. */
    method Register(phone: Option<string>, password: Option<string>, role: Option<string>, freshId: Id)
      returns (r: Outcome<Token>)
      requires Valid() && freshId !in users
      modifies this
      ensures Valid()
      ensures old(PhoneTaken(users, phone)) ==> r == Rejected("User already exists") && users == old(users)
      ensures !old(PhoneTaken(users, phone)) ==>
                && users == old(users)[freshId := User(phone, password, role, None, None, None)]
                && r == Ok(Token(freshId, role))
    {
      if PhoneTaken(users, phone) {
        r := Rejected("User already exists");
        return;
      }
      var user := User(phone, password, role, None, None, None);
      users := users[freshId := user];
      r := Ok(Token(freshId, user.role));
    }

    /** `login`, failing in this order: an unknown phone number, a password the
        comparison refuses, a password that does not match; otherwise the token
        carries the user's id and role. */
    function Login(phone: Option<string>, password: Option<string>, matches: (string, string) -> bool): (r: Outcome<Token>)
      reads this
      requires Valid()
      ensures !PhoneTaken(users, phone) ==> r == Rejected("User not exist!")
      ensures PhoneTaken(users, phone) ==>
                var id := FindByPhone(phone).value;
                match Compare(password, users[id].password, matches)
                case None => r == Internal
                case Some(false) => r == Rejected("Incorrect password")
                case Some(true) => r == Ok(Token(id, users[id].role))
      ensures r.Ok? ==> && r.value.id in users && users[r.value.id].phoneNumber == phone
                        && r.value.role == users[r.value.id].role
                        && password.Some? && users[r.value.id].password.Some?
                        && matches(password.value, users[r.value.id].password.value)
    {
      match FindByPhone(phone)
      case None => Rejected("User not exist!")
      case Some(id) =>
        match Compare(password, users[id].password, matches)
        case None => Internal
        case Some(ok) => if ok then Ok(Token(id, users[id].role)) else Rejected("Incorrect password")
    }

    /** `changePassword`: a missing password of either kind is rejected before
        the store is read; then an absent user is not found, a refused or
        failing comparison leaves the stored password; otherwise only the
        caller's password changes, to the new one. */
    method ChangePassword(caller: Token, current: Option<string>, newPassword: Option<string>, matches: (string, string) -> bool)
      returns (r: Outcome<()>)
      requires Valid()
      modifies this
      ensures Valid()
      ensures !TruthyString(current) || !TruthyString(newPassword) ==>
                r == Rejected("Please provide both current and new passwords.") && users == old(users)
      ensures TruthyString(current) && TruthyString(newPassword) && caller.id !in old(users) ==>
                r == NotFound("User not found.") && users == old(users)
      ensures TruthyString(current) && TruthyString(newPassword) && caller.id in old(users) ==>
                match Compare(current, old(users)[caller.id].password, matches)
                case None => r == Internal && users == old(users)
                case Some(false) => r == Rejected("Current password is incorrect.") && users == old(users)
                case Some(true) => r == Ok(()) && users == old(users)[caller.id := old(users)[caller.id].(password := newPassword)]
    {
      if !TruthyString(current) || !TruthyString(newPassword) {
        r := Rejected("Please provide both current and new passwords.");
        return;
      }
      if caller.id !in users {
        r := NotFound("User not found.");
        return;
      }
      var user := users[caller.id];
      var isMatch := Compare(current, user.password, matches);
      if isMatch.None? {
        r := Internal;
        return;
      }
      if !isMatch.value {
        r := Rejected("Current password is incorrect.");
        return;
      }
      user := user.(password := newPassword);
      users := users[caller.id := user];
      r := Ok(());
    }

    /** `updateProfile`: an absent user is not found; otherwise `email` and
        `name` change only when the new value is non-empty, `image` becomes the
        URL of the uploaded file when there is one (and the old image's public
        id is the one to destroy), and nothing else changes. */
    method UpdateProfile(caller: Token, email: Option<string>, name: Option<string>, uploaded: Option<string>)
      returns (r: Outcome<User>, destroyed: Option<string>)
      requires Valid()
      modifies this
      ensures Valid()
      ensures caller.id !in old(users) ==> r == NotFound("User not found.") && destroyed == None && users == old(users)
      ensures caller.id in old(users) ==>
                var u := old(users)[caller.id];
                && r == Ok(u.(email := if TruthyString(email) then email else u.email,
                              name := if TruthyString(name) then name else u.name,
                              image := if uploaded.Some? then uploaded else u.image))
                && users == old(users)[caller.id := r.value]
                && destroyed == (if uploaded.Some? && TruthyString(u.image) then Some(PublicId(u.image.value)) else None)
    {
      destroyed := None;
      if caller.id !in users {
        r := NotFound("User not found.");
        return;
      }
      var user := users[caller.id];
      if TruthyString(email) {
        user := user.(email := email);
      }
      if TruthyString(name) {
        user := user.(name := name);
      }
      if uploaded.Some? {
        if TruthyString(user.image) {
          destroyed := Some(PublicId(user.image.value));
        }
        user := user.(image := uploaded);
      }
      users := users[caller.id := user];
      r := Ok(user);
    }

    /** `getUser`: an absent caller is not found; a caller whose STORED role is
        "Admin" gets every user, any other caller only their own record; no
        password is ever part of the answer. */
    function GetUser(caller: Token): (r: Outcome<UserView>)
      reads this
      ensures caller.id !in users ==> r == NotFound("User not found.")
      ensures caller.id in users && users[caller.id].role == Some("Admin") ==>
                && r.Ok? && r.value.AllUsers?
                && r.value.users.Keys == users.Keys
                && forall id :: id in users ==> r.value.users[id] == WithoutPassword(users[id])
      ensures caller.id in users && users[caller.id].role != Some("Admin") ==>
                r == Ok(OneUser(caller.id, WithoutPassword(users[caller.id])))
    {
      if caller.id !in users then NotFound("User not found.")
      else if users[caller.id].role == Some("Admin") then
        Ok(AllUsers(map id | id in users :: WithoutPassword(users[id])))
      else Ok(OneUser(caller.id, WithoutPassword(users[caller.id])))
    }
  }

  /** A stored user who presents a password matching the stored one logs in
      as that user: the token carries their id and stored role. */
  lemma LoginFindsOwner(s: UserStore, id: Id, password: string, matches: (string, string) -> bool)
    requires s.Valid() && id in s.users
    requires s.users[id].password.Some? && matches(password, s.users[id].password.value)
    ensures s.Login(s.users[id].phoneNumber, Some(password), matches) == Ok(Token(id, s.users[id].role))
  {
    assert PhoneTaken(s.users, s.users[id].phoneNumber);
  }

  /** `getUser` decides by the role stored for the caller, not by the role in
      the token. */
  lemma GetUserIgnoresTokenRole(s: UserStore, id: Id, role1: Option<string>, role2: Option<string>)
    ensures s.GetUser(Token(id, role1)) == s.GetUser(Token(id, role2))
  {
  }
}

/**
 * The stored user record, the schema's required fields and defaults, and
 * the uniqueness of email addresses across the store.
 */
module UserModel {
  import opened Wrappers

  type UserId = nat

  /** A stored user. `friends` holds user ids, in the order they were added. */
  datatype User = User(
    id: UserId,
    name: string,
    email: string,
    password: string,
    friends: seq<UserId>,
    avatar: string,
    status: string,
    lastSeen: nat,
    isOnline: bool)

  /** A user as the handlers send it back with `select("-password")`. */
  datatype Profile = Profile(
    id: UserId,
    name: string,
    email: string,
    friends: seq<UserId>,
    avatar: string,
    status: string,
    lastSeen: nat,
    isOnline: bool)

  function Public(u: User): (p: Profile)
    ensures p.id == u.id && p.name == u.name && p.email == u.email && p.friends == u.friends
    ensures p.avatar == u.avatar && p.status == u.status && p.lastSeen == u.lastSeen && p.isOnline == u.isOnline
  {
    Profile(u.id, u.name, u.email, u.friends, u.avatar, u.status, u.lastSeen, u.isOnline)
  }

  /** The schema's `required` check: a missing or empty name, email or password fails validation. */
  predicate HasRequired(u: User) {
    u.name != "" && u.email != "" && u.password != ""
  }

  /**
   * A new document at time `now`: validation fails without name, email or
   * password; otherwise friends is empty, avatar and status are "",
   * lastSeen is the creation time and isOnline is false unless supplied.
   */
  function NewUser(id: UserId, name: string, email: string, password: string, isOnline: Option<bool>, now: nat)
    : (r: Option<User>)
    ensures r.Some? <==> name != "" && email != "" && password != ""
    ensures r.Some? ==>
      && HasRequired(r.value)
      && r.value.id == id && r.value.name == name && r.value.email == email && r.value.password == password
      && r.value.friends == [] && r.value.avatar == "" && r.value.status == ""
      && r.value.lastSeen == now
      && r.value.isOnline == (isOnline.Some? && isOnline.value)
  {
    if name == "" || email == "" || password == "" then None
    else Some(User(id, name, email, password, [], "", "", now, isOnline.GetOr(false)))
  }

  /** No two stored users share an email address (the unique index). */
  predicate UniqueEmails(users: map<UserId, User>) {
    forall a, b :: a in users && b in users && a != b ==> users[a].email != users[b].email
  }

  /** Some stored user has this email (`findOne({email})` finds a document). */
  predicate EmailTaken(users: map<UserId, User>, email: string) {
    exists k :: k in users && users[k].email == email
  }

  /** Adding a user whose email is not yet taken keeps emails unique. */
  lemma InsertKeepsEmailsUnique(users: map<UserId, User>, k: UserId, u: User)
    requires UniqueEmails(users) && !EmailTaken(users, u.email)
    ensures UniqueEmails(users[k := u])
  {
    var after := users[k := u];
    forall a, b | a in after && b in after && a != b
      ensures after[a].email != after[b].email
    {
      if a != k && b != k {
        assert users[a].email != users[b].email;
      } else if a == k {
        assert b in users;
      } else {
        assert a in users;
      }
    }
  }

  /** With unique emails, the user an email names is determined. */
  lemma EmailNamesOneUser(users: map<UserId, User>, email: string, a: UserId, b: UserId)
    requires UniqueEmails(users)
    requires a in users && users[a].email == email
    requires b in users && users[b].email == email
    ensures a == b
  {
  }
}

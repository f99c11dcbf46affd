/**
 * The user directory behind signup, login, the friend list, add-friend,
 * the profile lookup and the online-status change. Users live in a map
 * keyed by id; the `statusChanged` broadcasts are recorded in an outbox.
 * The authenticated caller is an input to every handler that needs one.
 */
module UserController {
  import opened Wrappers
  import opened UserModel

  /** `io.emit("statusChanged", ...)`: sent to every connected client. */
  datatype Broadcast = StatusChanged(userId: UserId, status: string)

  /** The friend as add-friend reports it. */
  datatype FriendSummary = FriendSummary(id: UserId, name: string, email: string)

  /** The user as the status change reports it. */
  datatype StatusSummary = StatusSummary(id: UserId, name: string, email: string, status: string)

  /** The JSON body of a reply; the signed token is not modelled. */
  datatype Body =
    | Failure(message: string)
    | SignedUp(message: string, user: User)
    | LoggedIn(message: string, profile: Profile)
    | Friends(friends: seq<Profile>)
    | FriendAdded(message: string, friend: FriendSummary)
    | UserData(profile: Profile)
    | StatusUpdated(message: string, summary: StatusSummary)

  datatype Reply = Reply(status: nat, body: Body)

  const UserExists := "User already exists"
  const ServerError := "Internal server error"
  const SignUpOk := "User created successfully"
  const BadCredentials := "Invalid email or password"
  const LoginOk := "Login successful"
  const UserNotFound := "User not found"
  const EmailRequired := "Email is required to add a friend"
  const FriendNotFound := "Friend not found"
  const AlreadyAdded := "Friend already added"
  const FriendAddedOk := "Friend added successfully"
  const StatusOk := "Status updated successfully"

  /** `populate("friends", "-password")`: the friends that still exist, in list order, without passwords. */
  function Populate(users: map<UserId, User>, ids: seq<UserId>): (r: seq<Profile>)
    ensures |r| <= |ids|
    ensures forall p :: p in r ==> exists k :: k in ids && k in users && p == Public(users[k])
  {
    if ids == [] then []
    else
      var rest := Populate(users, ids[1..]);
      assert ids[0] in ids && forall x :: x in ids[1..] ==> x in ids;
      if ids[0] in users then [Public(users[ids[0]])] + rest else rest
  }

  /** `email` and `password` match this user exactly. */
  predicate Credentials(u: User, email: string, password: string) {
    u.email == email && u.password == password
  }

  /** Every friend id on a stored user's list names a stored user. */
  ghost predicate FriendsStored(users: map<UserId, User>) {
    forall k, f :: k in users && f in users[k].friends ==> f in users
  }

  class UserStore {
    var users: map<UserId, User>
    var broadcasts: seq<Broadcast>
    var clock: nat
    var nextId: UserId

    /**
     * Emails are unique, every stored user has its required fields, keys are
     * ids, fresh ids lie ahead, and every friend id names a stored user
     * (users are never deleted and only stored users are added as friends).
     */
    ghost predicate Valid()
      reads this
    {
      && UniqueEmails(users)
      && (forall k :: k in users ==> users[k].id == k && k < nextId && HasRequired(users[k]))
      && FriendsStored(users)
    }

    constructor ()
      ensures Valid()
      ensures users == map[] && broadcasts == []
    {
      users, broadcasts, clock, nextId := map[], [], 0, 0;
    }

    /**
     * SignUp: an email already stored is a 400 and adds nothing; a missing
     * required field fails validation (500); otherwise exactly one user is
     * added, online, and returned in full.
     */
    method SignUp(name: string, email: string, password: string) returns (r: Reply)
      requires Valid()
      modifies this
      ensures Valid()
      ensures broadcasts == old(broadcasts)
      ensures EmailTaken(old(users), email) ==>
        r == Reply(400, Failure(UserExists)) && users == old(users)
      ensures !EmailTaken(old(users), email) && (name == "" || email == "" || password == "") ==>
        r == Reply(500, Failure(ServerError)) && users == old(users)
      ensures !EmailTaken(old(users), email) && name != "" && email != "" && password != "" ==>
        var u := NewUser(old(nextId), name, email, password, Some(true), old(clock)).value;
        && old(nextId) !in old(users)
        && users == old(users)[old(nextId) := u]
        && r == Reply(201, SignedUp(SignUpOk, u))
    {
      if exists k :: k in users && users[k].email == email {
        return Reply(400, Failure(UserExists));
      }
      var u := NewUser(nextId, name, email, password, Some(true), clock);
      if u.None? {
        return Reply(500, Failure(ServerError));
      }
      InsertKeepsEmailsUnique(users, nextId, u.value);
      users := users[nextId := u.value];
      nextId, clock := nextId + 1, clock + 1;
      r := Reply(201, SignedUp(SignUpOk, u.value));
    }

    /**
     * Login: succeeds only for a user matching both email and password, who
     * is then marked online with a new lastSeen; the reply carries the
     * profile as it was read before that update. Otherwise 401, no change.
     */
    method Login(email: string, password: string) returns (r: Reply)
      requires Valid()
      modifies this
      ensures Valid()
      ensures broadcasts == old(broadcasts)
      ensures (forall k :: k in old(users) ==> !Credentials(old(users)[k], email, password)) ==>
        r == Reply(401, Failure(BadCredentials)) && users == old(users)
      ensures forall k :: k in old(users) && Credentials(old(users)[k], email, password) ==>
        && users == old(users)[k := old(users)[k].(isOnline := true, lastSeen := old(clock))]
        && r == Reply(200, LoggedIn(LoginOk, Public(old(users)[k])))
    {
      if exists k :: k in users && Credentials(users[k], email, password) {
        var k :| k in users && Credentials(users[k], email, password);
        var before := users[k];
        users := users[k := before.(isOnline := true, lastSeen := clock)];
        clock := clock + 1;
        r := Reply(200, LoggedIn(LoginOk, Public(before)));
      } else {
        r := Reply(401, Failure(BadCredentials));
      }
    }

    /**
     * getFriends: 404 for an unknown caller, otherwise the populated friend
     * list, which holds one profile per listed friend, in list order; read-only.
     */
    method GetFriends(caller: UserId) returns (r: Reply)
      requires Valid()
      ensures caller !in users ==> r == Reply(404, Failure(UserNotFound))
      ensures caller in users ==> r == Reply(200, Friends(Populate(users, users[caller].friends)))
      ensures caller in users ==>
        var ids := users[caller].friends;
        && |r.body.friends| == |ids|
        && forall i :: 0 <= i < |ids| ==> ids[i] in users && r.body.friends[i] == Public(users[ids[i]])
    {
      if caller !in users {
        return Reply(404, Failure(UserNotFound));
      }
      var ids := users[caller].friends;
      assert forall i :: 0 <= i < |ids| ==> ids[i] in users by {
        forall i | 0 <= i < |ids|
          ensures ids[i] in users
        {
          assert ids[i] in users[caller].friends;
        }
      }
      PopulateAllPresent(users, ids);
      r := Reply(200, Friends(Populate(users, ids)));
    }

    /**
     * AddFriend: four guards in order (missing email, unknown caller, no user
     * with that email, already a friend), each leaving the store unchanged;
     * then the friend's id is appended to the caller's list only. Adding
     * one's own email is not rejected.
     */
    method AddFriend(caller: UserId, email: string) returns (r: Reply)
      requires Valid()
      modifies this
      ensures Valid()
      ensures broadcasts == old(broadcasts)
      ensures email == "" ==> r == Reply(400, Failure(EmailRequired)) && users == old(users)
      ensures email != "" && caller !in old(users) ==>
        r == Reply(404, Failure(UserNotFound)) && users == old(users)
      ensures email != "" && caller in old(users) && !EmailTaken(old(users), email) ==>
        r == Reply(404, Failure(FriendNotFound)) && users == old(users)
      ensures email != "" && caller in old(users) ==>
        forall f :: f in old(users) && old(users)[f].email == email ==>
          if f in old(users)[caller].friends then
            r == Reply(400, Failure(AlreadyAdded)) && users == old(users)
          else
            && users == old(users)[caller := old(users)[caller].(friends := old(users)[caller].friends + [f])]
            && r == Reply(200, FriendAdded(FriendAddedOk, FriendSummary(f, old(users)[f].name, email)))
    {
      if email == "" {
        return Reply(400, Failure(EmailRequired));
      }
      if caller !in users {
        return Reply(404, Failure(UserNotFound));
      }
      if !(exists k :: k in users && users[k].email == email) {
        return Reply(404, Failure(FriendNotFound));
      }
      var f :| f in users && users[f].email == email;
      var user := users[caller];
      if f in user.friends {
        return Reply(400, Failure(AlreadyAdded));
      }
      AppendFriendKeepsStored(users, caller, f);
      users := users[caller := user.(friends := user.friends + [f])];
      r := Reply(200, FriendAdded(FriendAddedOk, FriendSummary(f, users[f].name, email)));
    }

    /** getUserData: 404 for an unknown caller, otherwise the caller's profile without password; read-only. */
    method GetUserData(caller: UserId) returns (r: Reply)
      requires Valid()
      ensures caller !in users ==> r == Reply(404, Failure(UserNotFound))
      ensures caller in users ==> r == Reply(200, UserData(Public(users[caller])))
    {
      if caller !in users {
        return Reply(404, Failure(UserNotFound));
      }
      r := Reply(200, UserData(Public(users[caller])));
    }

    /**
     * changeOnlineStatus: 404 for an unknown caller; otherwise isOnline takes
     * the truthiness of the request flag and `statusChanged` is broadcast to
     * everyone carrying the user's status text, not the flag.
     */
    method ChangeOnlineStatus(caller: UserId, isOnline: bool) returns (r: Reply)
      requires Valid()
      modifies this
      ensures Valid()
      ensures caller !in old(users) ==>
        r == Reply(404, Failure(UserNotFound)) && users == old(users) && broadcasts == old(broadcasts)
      ensures caller in old(users) ==>
        var u := old(users)[caller];
        && users == old(users)[caller := u.(isOnline := isOnline)]
        && broadcasts == old(broadcasts) + [StatusChanged(caller, u.status)]
        && r == Reply(200, StatusUpdated(StatusOk, StatusSummary(caller, u.name, u.email, u.status)))
    {
      if caller !in users {
        return Reply(404, Failure(UserNotFound));
      }
      var u := users[caller].(isOnline := isOnline);
      users := users[caller := u];
      r := Reply(200, StatusUpdated(StatusOk, StatusSummary(caller, u.name, u.email, u.status)));
      broadcasts := broadcasts + [StatusChanged(caller, u.status)];
    }
  }

  /** When every listed friend exists, the populated list is the list itself, entry for entry. */
  lemma {:induction false} PopulateAllPresent(users: map<UserId, User>, ids: seq<UserId>)
    requires forall i :: 0 <= i < |ids| ==> ids[i] in users
    ensures |Populate(users, ids)| == |ids|
    ensures forall i :: 0 <= i < |ids| ==> Populate(users, ids)[i] == Public(users[ids[i]])
  {
    if ids != [] {
      PopulateAllPresent(users, ids[1..]);
    }
  }

  /** Appending a stored user to a stored user's friend list keeps every friend id stored. */
  lemma AppendFriendKeepsStored(users: map<UserId, User>, caller: UserId, f: UserId)
    requires FriendsStored(users) && caller in users && f in users
    ensures FriendsStored(users[caller := users[caller].(friends := users[caller].friends + [f])])
  {
  }

  /** A successful add-friend leaves every other user, the friend included, as it was. */
  lemma AddFriendTouchesOnlyCaller(users: map<UserId, User>, caller: UserId, f: UserId, other: UserId)
    requires caller in users && other in users && other != caller
    ensures var after := users[caller := users[caller].(friends := users[caller].friends + [f])];
      other in after && after[other] == users[other]
  {
  }
}

/** `PATCH /api/user/profile` (src/app/api/user/profile/route.ts): renames the
    caller. The token is checked before the body is read; the name must not be
    blank and at most 50 characters long as sent (before trimming); only the
    trimmed name is written, and the answer omits the password. */
module ProfileRoute {
  import opened Common
  import opened Text
  import opened UserModel
  import opened Auth
  import opened Database

  const NameRequired: string := "Name is required"
  const NameTooLong: string := "Name cannot be more than 50 characters"
  const ProfileUserNotFound: string := "User not found"
  const ProfileUpdated: string := "Profile updated successfully"
  /** This handler's `catch` answers with its own message. */
  const UpdateFailed: string := "Failed to update profile"

  datatype ProfileBody = ProfileBody(name: Option<string>)

  datatype ProfileReply = ProfileReply(message: string, user: UserView)

  /** `!name || name.trim().length === 0`. */
  predicate BlankName(name: Option<string>)
  {
    !TruthyText(name) || |Trim(name.value)| == 0
  }

  /** The new name is `name.trim()` and nothing else of the user changes. */
  function Rename(name: string): User -> User
  {
    (u: User) => u.(name := Trim(name))
  }

  /** The handler, answering with the response and the users collection after
      it. A caller id that is not an ObjectId makes `findByIdAndUpdate` throw. */
  function UpdateProfile(authorization: Option<string>, jwtVerify: string -> JwtOutcome, isObjectId: string -> bool,
                         body: Option<ProfileBody>, users: seq<User>): (r: (Reply<ProfileReply>, seq<User>))
    ensures Authenticate(authorization, jwtVerify).Denied? ==>
              r.0 == Err(401, Authenticate(authorization, jwtVerify).error)
    ensures Authenticate(authorization, jwtVerify).Granted? && body.Some? ==>
              (BlankName(body.value.name) <==> r.0 == Err(400, NameRequired))
    ensures Authenticate(authorization, jwtVerify).Granted? && body.Some? && !BlankName(body.value.name) ==>
              (|body.value.name.value| > NameMaxLength <==> r.0 == Err(400, NameTooLong))
    ensures r.0.Err? ==> r.0.status in {400, 401, 404, 500} && r.1 == users
    ensures r.0.Ok? ==> && r.0.status == 200 && r.0.body.message == ProfileUpdated
                        && Authenticate(authorization, jwtVerify).Granted? && body.Some?
                        && var id := Authenticate(authorization, jwtVerify).claims.userId;
                           var name := body.value.name.value;
                           && 1 <= |Trim(name)| <= NameMaxLength
                           && r.1 == UpdateUserById(users, id, Rename(name)).0
                           && UpdateUserById(users, id, Rename(name)).1.Some?
                           && r.0.body.user == View(UpdateUserById(users, id, Rename(name)).1.value)
    ensures Authenticate(authorization, jwtVerify).Granted? && body.None? ==> r == (Err(500, UpdateFailed), users)
    ensures Authenticate(authorization, jwtVerify).Granted? && body.Some? && !BlankName(body.value.name)
            && |body.value.name.value| <= NameMaxLength ==>
              var id := Authenticate(authorization, jwtVerify).claims.userId;
              var update := UpdateUserById(users, id, Rename(body.value.name.value));
              && (!isObjectId(id) ==> r == (Err(500, UpdateFailed), users))
              && (isObjectId(id) && update.1.None? ==> r == (Err(404, ProfileUserNotFound), users))
              && (isObjectId(id) && update.1.Some? ==>
                    r == (Ok(200, ProfileReply(ProfileUpdated, View(update.1.value))), update.0))
  {
    match Authenticate(authorization, jwtVerify)
    case Denied(status, error) => (Err(status, error), users)
    case Granted(claims) =>
      if body.None? then (Err(500, UpdateFailed), users)
      else if BlankName(body.value.name) then (Err(400, NameRequired), users)
      else
        var name := body.value.name.value;
        if |name| > NameMaxLength then (Err(400, NameTooLong), users)
        else if !isObjectId(claims.userId) then (Err(500, UpdateFailed), users)
        else
          var (users', updated) := UpdateUserById(users, claims.userId, Rename(name));
          match updated
          case None => (Err(404, ProfileUserNotFound), users)
          case Some(u) => (Ok(200, ProfileReply(ProfileUpdated, View(u))), users')
  }

  /** A rename touches the caller's record only, and in it only the name,
      which is stored trimmed; the collection stays valid. */
  lemma RenameChangesOnlyTheName(authorization: Option<string>, jwtVerify: string -> JwtOutcome,
                                 isObjectId: string -> bool, body: Option<ProfileBody>, users: seq<User>)
    requires UpdateProfile(authorization, jwtVerify, isObjectId, body, users).0.Ok?
    ensures var users' := UpdateProfile(authorization, jwtVerify, isObjectId, body, users).1;
            var id := Authenticate(authorization, jwtVerify).claims.userId;
            && |users'| == |users|
            && (forall i :: 0 <= i < |users| && users[i].id != id ==> users'[i] == users[i])
            && (forall i :: 0 <= i < |users| ==>
                  users'[i] == users[i] || users'[i] == users[i].(name := Trim(body.value.name.value)))
            && Trimmed(Trim(body.value.name.value))
            && (UsersValid(users) ==> UsersValid(users'))
  {
    var users' := UpdateProfile(authorization, jwtVerify, isObjectId, body, users).1;
    var name := body.value.name.value;
    var id := Authenticate(authorization, jwtVerify).claims.userId;
    if UsersValid(users) {
      forall i | 0 <= i < |users| ensures ValidUser(users'[i]) {
        assert ValidUser(users[i]);
      }
    }
  }

  /** The length limit applies to the name as sent: 51 characters that trim
      down to 49 are still refused. */
  lemma LengthMeasuredBeforeTrim(authorization: Option<string>, jwtVerify: string -> JwtOutcome,
                                 isObjectId: string -> bool, users: seq<User>)
    requires Authenticate(authorization, jwtVerify).Granted?
    ensures var name := " " + seq(49, _ => 'a') + " ";
            && |Trim(name)| <= NameMaxLength
            && UpdateProfile(authorization, jwtVerify, isObjectId, Some(ProfileBody(Some(name))), users).0
               == Err(400, NameTooLong)
  {
    var name := " " + seq(49, _ => 'a') + " ";
    var a := TrimInfix(name);
    assert |Trim(name)| <= NameMaxLength;
    assert name[1] == 'a';
    assert !AllWhitespace(name);
    TrimEmptyIffBlank(name);
  }

  /** `findByIdAndUpdate` on the store: only the caller's name changes. */
  method PatchProfile(store: Store, authorization: Option<string>, jwtVerify: string -> JwtOutcome,
                      isObjectId: string -> bool, body: Option<ProfileBody>)
    returns (r: Reply<ProfileReply>)
    modifies store
    ensures (r, store.users) == UpdateProfile(authorization, jwtVerify, isObjectId, body, old(store.users))
    ensures store.services == old(store.services) && store.bookings == old(store.bookings)
    ensures store.hosted == old(store.hosted)
    ensures old(store.Valid(isObjectId)) ==> store.Valid(isObjectId)
  {
    var result := UpdateProfile(authorization, jwtVerify, isObjectId, body, store.users);
    if result.0.Ok? {
      RenameChangesOnlyTheName(authorization, jwtVerify, isObjectId, body, store.users);
    }
    r := result.0;
    store.users := result.1;
  }
}

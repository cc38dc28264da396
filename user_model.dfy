/** The User document (src/models/User.ts): its fields, the schema's casting
    and validation (trim, lowercase, maxlength, minlength, the e-mail pattern,
    the role enum and defaults), the password-free view every route answers
    with (src/types/auth.ts), and lookups over the users collection. */
module UserModel {
  import opened Common
  import opened Text

  datatype Role = Seeker | Taskio

  function RoleName(r: Role): string
  {
    match r
    case Seeker => "seeker"
    case Taskio => "taskio"
  }

  /** The schema's `enum: ['seeker', 'taskio']`. */
  function ParseRole(s: string): (r: Option<Role>)
    ensures r.Some? <==> s == "seeker" || s == "taskio"
    ensures r.Some? ==> RoleName(r.value) == s
  {
    if s == "seeker" then Some(Seeker) else if s == "taskio" then Some(Taskio) else None
  }

  lemma RoleNameRoundTrip(r: Role)
    ensures ParseRole(RoleName(r)) == Some(r)
  {
  }

  const NameMaxLength: nat := 50
  const PasswordMinLength: nat := 6

  /** A stored user. `password` holds the bcrypt hash, never the plain text. */
  datatype User = User(
    id: string,
    name: string,
    email: string,
    password: string,
    role: Role,
    profilePicture: Option<string>,
    headerImage: Option<string>,
    createdAt: int)

  /** The user object the routes answer with: every stored field but the password. */
  datatype UserView = UserView(
    id: string,
    name: string,
    email: string,
    role: Role,
    profilePicture: Option<string>,
    headerImage: Option<string>,
    createdAt: int)

  function View(u: User): UserView
  {
    UserView(u.id, u.name, u.email, u.role, u.profilePicture, u.headerImage, u.createdAt)
  }

  // The e-mail pattern /^\w+([.-]?\w+)*@\w+([.-]?\w+)*(\.\w{2,3})+$/.

  predicate IsWordChar(c: char)
  {
    'a' <= c <= 'z' || 'A' <= c <= 'Z' || '0' <= c <= '9' || c == '_'
  }

  predicate IsSeparator(c: char)
  {
    c == '.' || c == '-'
  }

  /** The language of `\w+([.-]?\w+)*`: word characters, with single `.` or `-`
      separators, starting and ending with a word character. */
  predicate IsDotted(s: string)
  {
    && |s| > 0
    && IsWordChar(s[0])
    && IsWordChar(s[|s| - 1])
    && forall i :: 0 <= i < |s| ==>
         IsWordChar(s[i]) || (IsSeparator(s[i]) && 0 < i < |s| - 1 && IsWordChar(s[i + 1]))
  }

  /** The language of `(\.\w{2,3})+`. */
  predicate IsTldRun(s: string)
    decreases |s|
  {
    && |s| >= 3
    && s[0] == '.' && IsWordChar(s[1]) && IsWordChar(s[2])
    && (|s| == 3
        || IsTldRun(s[3..])
        || (IsWordChar(s[3]) && (|s| == 4 || IsTldRun(s[4..]))))
  }

  /** A split of `s` into `local@domain.tld` the pattern accepts, with `@` at `at`
      and the top-level run starting at `tld`. */
  predicate EmailSplit(s: string, at: int, tld: int)
  {
    && 0 <= at < tld <= |s|
    && s[at] == '@'
    && IsDotted(s[..at])
    && IsDotted(s[at + 1..tld])
    && IsTldRun(s[tld..])
  }

  /** The schema's `match` validator for `email`. */
  predicate IsValidEmail(s: string)
  {
    exists at, tld | 0 <= at < tld <= |s| :: EmailSplit(s, at, tld)
  }

  /** A valid address has its `@` between two non-empty parts and ends in a dotted
      suffix of two or three word characters. */
  lemma {:induction false} ValidEmailShape(s: string)
    requires IsValidEmail(s)
    ensures exists at :: 0 < at < |s| - 1 && s[at] == '@'
    ensures |s| >= 3 && IsWordChar(s[|s| - 1]) && IsWordChar(s[|s| - 2])
  {
    var at, tld :| 0 <= at < tld <= |s| && EmailSplit(s, at, tld);
    TldRunEnd(s[tld..]);
    assert s[|s| - 1] == s[tld..][|s[tld..]| - 1];
    assert s[|s| - 2] == s[tld..][|s[tld..]| - 2];
  }

  lemma {:induction false} TldRunEnd(s: string)
    requires IsTldRun(s)
    ensures |s| >= 3 && IsWordChar(s[|s| - 1]) && IsWordChar(s[|s| - 2])
    decreases |s|
  {
    if |s| > 3 && IsTldRun(s[3..]) {
      TldRunEnd(s[3..]);
      assert s[|s| - 1] == s[3..][|s[3..]| - 1];
      assert s[|s| - 2] == s[3..][|s[3..]| - 2];
    } else if |s| > 4 && IsWordChar(s[3]) && IsTldRun(s[4..]) {
      TldRunEnd(s[4..]);
      assert s[|s| - 1] == s[4..][|s[4..]| - 1];
      assert s[|s| - 2] == s[4..][|s[4..]| - 2];
    }
  }

  /** An ordinary address passes the pattern. */
  lemma ValidEmailExample()
    ensures IsValidEmail("ann@mail.com")
  {
    var s := "ann@mail.com";
    var local, domain, tld := s[..3], s[4..8], s[8..];
    assert local == "ann" && domain == "mail" && tld == ".com";
    assert IsDotted(local) && IsDotted(domain);
    assert tld[3..] == "m" && tld[4..] == [];
    assert IsTldRun(tld);
    assert EmailSplit(s, 3, 8);
  }

  /** An address without a dotted suffix fails it. */
  lemma InvalidEmailExample()
    ensures !IsValidEmail("ann@example")
  {
    var s := "ann@example";
    forall at, tld | 0 <= at < tld <= |s| ensures !EmailSplit(s, at, tld) {
      if tld < |s| {
        assert s[tld..][0] == s[tld];
        assert s[tld] != '.';
      } else {
        assert s[tld..] == "";
      }
    }
  }

  /** What the schema guarantees of every stored user. */
  predicate ValidUser(u: User)
  {
    && 1 <= |u.name| <= NameMaxLength
    && Trimmed(u.name)
    && Trimmed(u.email)
    && IsLowerCase(u.email)
    && IsValidEmail(u.email)
    && |u.password| >= PasswordMinLength
  }

  /** The fields handed to `new User({...})`; an absent field is `None`. */
  datatype UserInput = UserInput(
    name: Option<string>,
    email: Option<string>,
    password: Option<string>,
    role: Option<string>)

  /** `name`: trimmed, required, at most 50 characters. */
  function CastName(name: Option<string>): (r: Option<string>)
    ensures r.Some? <==> name.Some? && 1 <= |Trim(name.value)| <= NameMaxLength
    ensures r.Some? ==> r.value == Trim(name.value) && Trimmed(r.value)
  {
    if name.None? then None
    else
      var t := Trim(name.value);
      if |t| == 0 || |t| > NameMaxLength then None else Some(t)
  }

  lemma TrimKeepsLowerCase(s: string)
    requires IsLowerCase(s)
    ensures IsLowerCase(Trim(s))
  {
    var r := Trim(s);
    var a := TrimInfix(s);
    assert forall i :: 0 <= i < |r| ==> r[i] == s[a + i];
  }

  /** `email`: lower-cased and trimmed, required, matching the pattern. */
  function CastEmail(email: Option<string>): (r: Option<string>)
    ensures r.Some? <==> email.Some? && IsValidEmail(Trim(ToLower(email.value)))
    ensures r.Some? ==> && r.value == Trim(ToLower(email.value))
                        && Trimmed(r.value) && IsLowerCase(r.value) && IsValidEmail(r.value)
  {
    if email.None? then None
    else
      var e := Trim(ToLower(email.value));
      TrimKeepsLowerCase(ToLower(email.value));
      if IsValidEmail(e) then Some(e) else None
  }

  /** `password`: required, at least 6 characters (the hash is what is stored). */
  function CastPassword(password: Option<string>): (r: Option<string>)
    ensures r.Some? <==> password.Some? && |password.value| >= PasswordMinLength
    ensures r.Some? ==> r.value == password.value
  {
    if password.Some? && |password.value| >= PasswordMinLength then password else None
  }

  /** `role`: `'seeker'` when absent, otherwise one of the enum. */
  function CastRole(role: Option<string>): (r: Option<Role>)
    ensures role.None? ==> r == Some(Seeker)
    ensures role.Some? ==> r == ParseRole(role.value)
  {
    if role.None? then Some(Seeker) else ParseRole(role.value)
  }

  /** Mongoose's casting and validation at `save()`: setters (trim, lowercase),
      then `required`, `maxlength`, `match`, `minlength` and `enum`, and the
      defaults for `role` and the two images. `None` is a ValidationError. */
  function CastUser(id: string, input: UserInput, createdAt: int): (r: Option<User>)
    ensures r.Some? <==> && CastName(input.name).Some? && CastEmail(input.email).Some?
                         && CastPassword(input.password).Some? && CastRole(input.role).Some?
    ensures r.Some? ==> ValidUser(r.value)
    ensures r.Some? ==> && r.value.id == id
                        && r.value.name == Trim(input.name.value)
                        && r.value.email == Trim(ToLower(input.email.value))
                        && r.value.password == input.password.value
                        && r.value.role == CastRole(input.role).value
    ensures r.Some? ==> r.value.profilePicture.None? && r.value.headerImage.None?
  {
    var name := CastName(input.name);
    var email := CastEmail(input.email);
    var password := CastPassword(input.password);
    var role := CastRole(input.role);
    if name.None? || email.None? || password.None? || role.None? then None
    else Some(User(id, name.value, email.value, password.value, role.value, None, None, createdAt))
  }

  lemma ToLowerOfLower(s: string)
    requires IsLowerCase(s)
    ensures ToLower(s) == s
  {
  }

  /** A stored name is cast to itself. */
  lemma CastNameOfStored(name: string)
    requires 1 <= |name| <= NameMaxLength && Trimmed(name)
    ensures CastName(Some(name)) == Some(name)
  {
    TrimFixesTrimmed(name);
  }

  /** A stored e-mail is cast to itself: lower-casing and trimming leave it alone. */
  lemma CastEmailOfStored(email: string)
    requires Trimmed(email) && IsLowerCase(email) && IsValidEmail(email)
    ensures CastEmail(Some(email)) == Some(email)
  {
    ToLowerOfLower(email);
    TrimFixesTrimmed(email);
  }

  /** Casting the fields of a valid user gives that user back (images aside). */
  lemma CastUserRoundTrip(u: User)
    requires ValidUser(u) && u.profilePicture.None? && u.headerImage.None?
    ensures CastUser(u.id, UserInput(Some(u.name), Some(u.email), Some(u.password), Some(RoleName(u.role))), u.createdAt) == Some(u)
  {
    var input := UserInput(Some(u.name), Some(u.email), Some(u.password), Some(RoleName(u.role)));
    CastNameOfStored(u.name);
    CastEmailOfStored(u.email);
    RoleNameRoundTrip(u.role);
    assert CastRole(input.role) == Some(u.role);
    var r := CastUser(u.id, input, u.createdAt);
    assert r == Some(User(u.id, u.name, u.email, u.password, u.role, None, None, u.createdAt));
  }

  /** The unique index on `email`. */
  ghost predicate UniqueEmails(users: seq<User>)
  {
    forall i, j :: 0 <= i < j < |users| ==> users[i].email != users[j].email
  }

  /** `User.findById(id)`: the first user with that id. */
  function FindUserById(users: seq<User>, id: string): (r: Option<User>)
    ensures r.Some? ==> r.value in users && r.value.id == id
    ensures r.None? <==> forall u :: u in users ==> u.id != id
  {
    if users == [] then None
    else if users[0].id == id then Some(users[0])
    else FindUserById(users[1..], id)
  }

  /** `User.findOne({ email })`: the first user with that e-mail. */
  function FindUserByEmail(users: seq<User>, email: string): (r: Option<User>)
    ensures r.Some? ==> r.value in users && r.value.email == email
    ensures r.None? <==> forall u :: u in users ==> u.email != email
  {
    if users == [] then None
    else if users[0].email == email then Some(users[0])
    else FindUserByEmail(users[1..], email)
  }

  /** `User.findByIdAndUpdate(id, ...)`: replaces the first user with that id by
      `f` of it, and answers the updated user; `None` when no user has the id. */
  function UpdateUserById(users: seq<User>, id: string, f: User -> User): (r: (seq<User>, Option<User>))
    ensures |r.0| == |users|
    ensures r.1.None? <==> FindUserById(users, id).None?
    ensures r.1.None? ==> r.0 == users
    ensures r.1.Some? ==> r.1.value == f(FindUserById(users, id).value)
    ensures forall i :: 0 <= i < |users| ==> r.0[i] == users[i] || (users[i].id == id && r.0[i] == f(users[i]))
    ensures forall i :: 0 <= i < |users| && users[i].id != id ==> r.0[i] == users[i]
  {
    if users == [] then ([], None)
    else if users[0].id == id then ([f(users[0])] + users[1..], Some(f(users[0])))
    else
      var rest := UpdateUserById(users[1..], id, f);
      ([users[0]] + rest.0, rest.1)
  }
}

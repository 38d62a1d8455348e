/** The mock user database and session of `contexts/AuthContext.tsx`: a list of
    users, one pending sign-up awaiting its phone code, and the logged-in user.
    Sign-up parks the details, verification appends a verified user and logs it
    in, login checks the credentials against the list. */
module AuthContext {
  import opened Prelude
  import opened Types

  const InvalidCredentials: string := "Invalid email or password."
  const NotVerified: string := "Account not verified. Please complete the phone verification process."
  const EmailInUse: string := "An account with this email already exists."
  const NoPendingVerification: string := "No pending verification found. Please sign up again."
  const InvalidCode: string := "Invalid verification code."
  const NoUserLoggedIn: string := "No user is logged in to update."

  /** The code every sign-up is given. */
  const DemoVerificationCode: string := "123456"

  /** The sign-up details waiting for phone verification. */
  datatype PendingSignup = PendingSignup(email: string, phone: string, password: string, verificationCode: string)

  /** Lower case of one character; only the ASCII capitals change. */
  function LowerChar(c: char): char
  {
    if 'A' <= c <= 'Z' then (c as int + 32) as char else c
  }

  function ToLower(s: string): (r: string)
    ensures |r| == |s|
    ensures forall k :: 0 <= k < |s| ==> r[k] == LowerChar(s[k]) && !('A' <= r[k] <= 'Z')
  {
    if s == [] then [] else [LowerChar(s[0])] + ToLower(s[1..])
  }

  /** Two email addresses are the same account when they agree ignoring case. */
  predicate SameEmail(a: string, b: string)
  {
    ToLower(a) == ToLower(b)
  }

  /** Lower-casing an address does not make it another account. */
  lemma SameEmailIgnoresCase(email: string)
    ensures SameEmail(email, ToLower(email))
  {
    assert ToLower(ToLower(email)) == ToLower(email);
  }

  /** The user as handed to the client: the same record without its password. */
  function ClientUser(u: User): (a: AuthUser)
    ensures a.id == u.id && a.email == u.email && a.phone == u.phone
    ensures a.profilePhotoUrl == u.profilePhotoUrl && a.phoneVerified == u.phoneVerified
  {
    AuthUser(u.id, u.email, u.phone, u.profilePhotoUrl, u.phoneVerified)
  }

  /** The login lookup: email equal ignoring case, password equal exactly. */
  predicate MatchesCredentials(u: User, email: string, pass: string)
  {
    SameEmail(u.email, email) && u.password == pass
  }

  /** The index of the first user matching the credentials (`Array.prototype.find`). */
  function FindCredentials(users: seq<User>, email: string, pass: string): (r: Option<nat>)
    ensures r.Some? ==> r.value < |users| && MatchesCredentials(users[r.value], email, pass)
    ensures r.Some? ==> forall j :: 0 <= j < r.value ==> !MatchesCredentials(users[j], email, pass)
    ensures r.None? ==> forall j :: 0 <= j < |users| ==> !MatchesCredentials(users[j], email, pass)
  {
    if users == [] then None
    else if MatchesCredentials(users[0], email, pass) then Some(0)
    else
      match FindCredentials(users[1..], email, pass)
      case None => None
      case Some(i) => Some(i + 1)
  }

  /** How a login attempt settles against the user list `users`. */
  function LoginOutcome(users: seq<User>, email: string, pass: string): (r: Result<AuthUser>)
    ensures r.Ok? || r == Err(InvalidCredentials) || r == Err(NotVerified)
    ensures r.Ok? ==> r.value.phoneVerified
    ensures r == Err(NotVerified) ==> exists i :: 0 <= i < |users| && MatchesCredentials(users[i], email, pass) && !users[i].phoneVerified
  {
    match FindCredentials(users, email, pass)
    case None => Err(InvalidCredentials)
    case Some(i) => if users[i].phoneVerified then Ok(ClientUser(users[i])) else Err(NotVerified)
  }

  /** A login is accepted only for a verified user whose credentials match, and it
      yields that user without its password. */
  lemma LoginAcceptsOnlyVerifiedCredentials(users: seq<User>, email: string, pass: string)
    ensures LoginOutcome(users, email, pass).Ok? ==>
      exists i :: 0 <= i < |users| && MatchesCredentials(users[i], email, pass) && users[i].phoneVerified
        && LoginOutcome(users, email, pass).value == ClientUser(users[i])
  {
    var found := FindCredentials(users, email, pass);
    if found.Some? {
      var i := found.value;
      assert MatchesCredentials(users[i], email, pass);
    }
  }

  /** Login rejects with the invalid-credentials message exactly when no user
      matches the credentials. */
  lemma LoginRejectsUnknownCredentials(users: seq<User>, email: string, pass: string)
    ensures LoginOutcome(users, email, pass) == Err(InvalidCredentials)
        <==> forall i :: 0 <= i < |users| ==> !MatchesCredentials(users[i], email, pass)
  {
  }

  /** The first matching user decides a login: it succeeds when that user is
      verified and is refused as unverified otherwise. */
  lemma LoginUsesFirstMatch(users: seq<User>, email: string, pass: string, i: nat)
    requires i < |users| && MatchesCredentials(users[i], email, pass)
    requires forall j :: 0 <= j < i ==> !MatchesCredentials(users[j], email, pass)
    ensures LoginOutcome(users, email, pass)
         == if users[i].phoneVerified then Ok(ClientUser(users[i])) else Err(NotVerified)
  {
    var found := FindCredentials(users, email, pass);
    assert found.Some?;
    assert found.value == i;
  }

  /** Sign-up's duplicate check (`Array.prototype.some`), scanning the list. */
  predicate EmailTaken(users: seq<User>, email: string): (taken: bool)
    ensures taken <==> exists i :: 0 <= i < |users| && SameEmail(users[i].email, email)
  {
    if users == [] then false
    else if SameEmail(users[0].email, email) then true
    else
      var rest := EmailTaken(users[1..], email);
      assert rest <==> exists i :: 1 <= i < |users| && SameEmail(users[i].email, email) by {
        if rest {
          var j :| 0 <= j < |users| - 1 && SameEmail(users[1..][j].email, email);
          assert SameEmail(users[j + 1].email, email);
        }
        forall i | 1 <= i < |users| && SameEmail(users[i].email, email)
          ensures rest
        {
          assert users[1..][i - 1] == users[i];
        }
      }
      rest
  }

  /** The user a successful verification creates. */
  function NewUser(id: string, p: PendingSignup): (u: User)
    ensures u.id == id && u.email == p.email && u.phone == p.phone && u.password == p.password
    ensures u.phoneVerified && u.profilePhotoUrl.None?
  {
    User(id, p.email, p.phone, p.password, None, true)
  }

  /** An account created from a sign-up that passed the duplicate check can log
      in with the sign-up's email and password, and gets the new user. */
  lemma NewAccountCanLogIn(users: seq<User>, id: string, p: PendingSignup)
    requires !EmailTaken(users, p.email)
    ensures LoginOutcome(users + [NewUser(id, p)], p.email, p.password) == Ok(ClientUser(NewUser(id, p)))
  {
    var all := users + [NewUser(id, p)];
    forall j | 0 <= j < |users|
      ensures !MatchesCredentials(all[j], p.email, p.password)
    {
      assert all[j] == users[j];
      assert !SameEmail(users[j].email, p.email);
    }
    assert SameEmail(p.email, p.email);
    LoginUsesFirstMatch(all, p.email, p.password, |users|);
  }

  /** The index of the first user with the given id (`Array.prototype.findIndex`). */
  function FindById(users: seq<User>, id: string): (r: Option<nat>)
    ensures r.Some? ==> r.value < |users| && users[r.value].id == id
    ensures r.Some? ==> forall j :: 0 <= j < r.value ==> users[j].id != id
    ensures r.None? ==> forall j :: 0 <= j < |users| ==> users[j].id != id
  {
    if users == [] then None
    else if users[0].id == id then Some(0)
    else
      match FindById(users[1..], id)
      case None => None
      case Some(i) => Some(i + 1)
  }

  class AuthProvider {
    /** The user database. */
    var users: seq<User>
    /** The sign-up waiting for its code. */
    var pending: Option<PendingSignup>
    /** The logged-in user, without password. */
    var currentUser: Option<AuthUser>

    /** The provider as mounted: the stored database, a pending sign-up if one was
        parked, and the session user restored from the session store. */
    constructor (users: seq<User>, pending: Option<PendingSignup>, session: Option<AuthUser>)
      ensures this.users == users && this.pending == pending && currentUser == session
    {
      this.users := users;
      this.pending := pending;
      currentUser := session;
    }

    function IsAuthenticated(): bool
      reads this
    {
      currentUser.Some?
    }

    method Login(email: string, pass: string) returns (r: Outcome)
      modifies this
      ensures users == old(users) && pending == old(pending)
      ensures match LoginOutcome(old(users), email, pass)
        case Ok(u) => r == Resolved && currentUser == Some(u)
        case Err(m) => r == Rejected(m) && currentUser == old(currentUser)
    {
      var found := FindCredentials(users, email, pass);
      if found.None? {
        return Rejected(InvalidCredentials);
      }
      var user := users[found.value];
      if !user.phoneVerified {
        return Rejected(NotVerified);
      }
      currentUser := Some(ClientUser(user));
      r := Resolved;
    }

    /** Parks the details with the demo code unless the email is taken; the user
        list is never touched. */
    method Signup(email: string, phone: string, password: string) returns (r: Outcome)
      modifies this
      ensures users == old(users) && currentUser == old(currentUser)
      ensures EmailTaken(old(users), email) ==> r == Rejected(EmailInUse) && pending == old(pending)
      ensures !EmailTaken(old(users), email) ==>
        r == Resolved && pending == Some(PendingSignup(email, phone, password, DemoVerificationCode))
    {
      if EmailTaken(users, email) {
        return Rejected(EmailInUse);
      }
      pending := Some(PendingSignup(email, phone, password, DemoVerificationCode));
      r := Resolved;
    }

    /** Checks `code` against the pending sign-up; on a match appends the new
        verified user (with the caller's `id`), logs it in and clears the pending
        sign-up. The list is not checked for the email again. */
    method VerifyPhoneAndLogin(code: string, id: string) returns (r: Outcome)
      modifies this
      ensures old(pending).None? ==> r == Rejected(NoPendingVerification) && unchanged(this)
      ensures old(pending).Some? && code != old(pending).value.verificationCode ==>
        r == Rejected(InvalidCode) && unchanged(this)
      ensures old(pending).Some? && code == old(pending).value.verificationCode ==>
        && r == Resolved
        && users == old(users) + [NewUser(id, old(pending).value)]
        && currentUser == Some(ClientUser(NewUser(id, old(pending).value)))
        && pending.None?
    {
      if pending.None? {
        return Rejected(NoPendingVerification);
      }
      var p := pending.value;
      if code != p.verificationCode {
        return Rejected(InvalidCode);
      }
      var user := NewUser(id, p);
      users := users + [user];
      currentUser := Some(ClientUser(user));
      pending := None;
      r := Resolved;
    }

    method Logout()
      modifies this
      ensures currentUser.None? && !IsAuthenticated()
      ensures users == old(users) && pending == old(pending)
    {
      currentUser := None;
    }

    /** Sets the photo on the session user and, in the database, on the first
        user with the same id; every other user and field stays as it was. */
    method UpdateProfilePhoto(url: string) returns (r: Outcome)
      modifies this
      ensures pending == old(pending)
      ensures old(currentUser).None? ==> r == Rejected(NoUserLoggedIn) && unchanged(this)
      ensures old(currentUser).Some? ==>
        && r == Resolved
        && currentUser == Some(old(currentUser).value.(profilePhotoUrl := Some(url)))
        && |users| == |old(users)|
        && match FindById(old(users), old(currentUser).value.id)
           case None => users == old(users)
           case Some(i) =>
             && users[i] == old(users)[i].(profilePhotoUrl := Some(url))
             && forall j :: 0 <= j < |users| && j != i ==> users[j] == old(users)[j]
    {
      if currentUser.None? {
        return Rejected(NoUserLoggedIn);
      }
      var user := currentUser.value;
      currentUser := Some(user.(profilePhotoUrl := Some(url)));
      var index := FindById(users, user.id);
      if index.Some? {
        var i := index.value;
        users := users[i := users[i].(profilePhotoUrl := Some(url))];
      }
      r := Resolved;
    }
  }
}

/** Signup and login over the one user table (src/routes/user.ts, src/routes/admin.ts).
    The two routers differ only in the role they force: `asAdmin` is false for the user
    router and true for the admin router. Oracles: `isEmail` is the schema's e-mail
    format check, `matches(password, hash)` is the hash comparison; `hashed` is the hash
    the route computes for the new password. */
module Accounts {
  import opened Wrappers
  import opened Store
  import Auth

  /** The signup body; `isAdmin` is whatever the client sent, and the routes ignore it. */
  datatype SignupBody = SignupBody(name: Field<string>, email: Field<string>, password: Field<string>, isAdmin: Field<bool>)

  datatype LoginBody = LoginBody(email: Field<string>, password: Field<string>)

  datatype SignupResult = SignupInvalid | EmailTaken | SignedUp(account: Account, claims: Auth.Claims) {
    function Code(): int {
      match this
      case SignupInvalid => 400
      case EmailTaken => 400
      case SignedUp(_, _) => 201
    }
  }

  datatype LoginResult = LoginInvalid | NoSuchAccount | WrongPassword | LoggedIn(claims: Auth.Claims) {
    function Code(): int {
      match this
      case LoginInvalid => 400
      case NoSuchAccount => 404
      case WrongPassword => 401
      case LoggedIn(_) => 200
    }
  }

  const MinPasswordLength: nat := 6

  /** JavaScript's `length`: UTF-16 code units, two for a character outside the
      Basic Multilingual Plane. The schema's `min` compares this count. */
  function Utf16Length(s: string): (n: nat)
    ensures |s| <= n <= 2 * |s|
  {
    if s == [] then 0
    else (if s[0] as int >= 0x1_0000 then 2 else 1) + Utf16Length(s[1..])
  }

  /** The signup schema: non-empty name, well-formed e-mail, password of at least six. */
  predicate ValidSignup(b: SignupBody, isEmail: string -> bool) {
    && b.name.Given? && Utf16Length(b.name.value) >= 1
    && b.email.Given? && isEmail(b.email.value)
    && b.password.Given? && Utf16Length(b.password.value) >= MinPasswordLength
  }

  /** The login schema: well-formed e-mail, password of at least six. */
  predicate ValidLogin(b: LoginBody, isEmail: string -> bool) {
    && b.email.Given? && isEmail(b.email.value)
    && b.password.Given? && Utf16Length(b.password.value) >= MinPasswordLength
  }

  predicate EmailInUse(users: seq<Account>, email: string) {
    exists i :: 0 <= i < |users| && users[i].email == email
  }

  /** What a signup through the router with role `asAdmin` answers. */
  function SignupOutcome(users: seq<Account>, b: SignupBody, isEmail: string -> bool, hashed: string, asAdmin: bool): (r: SignupResult)
    ensures !ValidSignup(b, isEmail) ==> r == SignupInvalid
    ensures ValidSignup(b, isEmail) && EmailInUse(users, b.email.value) ==> r == EmailTaken
    ensures r.SignedUp? ==>
              && ValidSignup(b, isEmail)
              && !EmailInUse(users, b.email.value)
              && r.account == Account(|users| + 1, b.name.value, b.email.value, hashed, asAdmin)
              && r.claims == Auth.Claims(|users| + 1, asAdmin)
    ensures ValidSignup(b, isEmail) && !EmailInUse(users, b.email.value) ==> r.SignedUp?
  {
    if !ValidSignup(b, isEmail) then SignupInvalid
    else if FindByEmail(users, b.email.value).Some? then EmailTaken
    else
      var account := Account(|users| + 1, b.name.value, b.email.value, hashed, asAdmin);
      SignedUp(account, Auth.Claims(account.id, asAdmin))
  }

  /** `POST /signup` on either router: validate, refuse a known e-mail, insert. */
  method Signup(db: Database, b: SignupBody, isEmail: string -> bool, hashed: string, asAdmin: bool)
    returns (r: SignupResult)
    requires db.Valid()
    modifies db
    ensures db.Valid()
    ensures r == SignupOutcome(old(db.users), b, isEmail, hashed, asAdmin)
    ensures db.users == if r.SignedUp? then old(db.users) + [r.account] else old(db.users)
    ensures db.requests == old(db.requests) && db.profiles == old(db.profiles)
    ensures db.skills == old(db.skills) && db.reports == old(db.reports)
  {
    if !ValidSignup(b, isEmail) {
      return SignupInvalid;
    }
    var existing := FindByEmail(db.users, b.email.value);
    if existing.Some? {
      return EmailTaken;
    }
    var account := Account(|db.users| + 1, b.name.value, b.email.value, hashed, asAdmin);
    db.users := db.users + [account];
    r := SignedUp(account, Auth.Claims(account.id, asAdmin));
  }

  /** What a login through the router with role `asAdmin` answers. An account of the
      other role is reported exactly like an unknown e-mail. */
  function LoginOutcome(users: seq<Account>, b: LoginBody, isEmail: string -> bool,
                        matches: (string, string) -> bool, asAdmin: bool): (r: LoginResult)
    ensures !ValidLogin(b, isEmail) ==> r == LoginInvalid
    ensures ValidLogin(b, isEmail) && !EmailInUse(users, b.email.value) ==> r == NoSuchAccount
    ensures (&& ValidLogin(b, isEmail)
             && forall i :: 0 <= i < |users| && users[i].email == b.email.value ==> users[i].isAdmin != asAdmin)
            ==> r == NoSuchAccount
    ensures r == WrongPassword ==>
              exists a :: a in users && a.email == b.email.value && a.isAdmin == asAdmin && !matches(b.password.value, a.password)
    ensures ValidLogin(b, isEmail) ==> r != LoginInvalid
    ensures ValidLogin(b, isEmail) && FindByEmail(users, b.email.value).Some?
            && FindByEmail(users, b.email.value).value.isAdmin == asAdmin ==>
              var a := FindByEmail(users, b.email.value).value;
              r == if matches(b.password.value, a.password) then LoggedIn(Auth.Claims(a.id, asAdmin)) else WrongPassword
    ensures r.LoggedIn? ==>
              && ValidLogin(b, isEmail)
              && exists a :: a in users && a.email == b.email.value && a.isAdmin == asAdmin
                             && matches(b.password.value, a.password) && r.claims == Auth.Claims(a.id, asAdmin)
  {
    if !ValidLogin(b, isEmail) then LoginInvalid
    else
      match FindByEmail(users, b.email.value)
      case None => NoSuchAccount
      case Some(a) =>
        if a.isAdmin != asAdmin then NoSuchAccount
        else if !matches(b.password.value, a.password) then WrongPassword
        else LoggedIn(Auth.Claims(a.id, asAdmin))
  }

  /** A password of three characters outside the Basic Multilingual Plane is six UTF-16
      units long, so it passes the length rule of both schemas. */
  lemma AstralPasswordAccepted(isEmail: string -> bool, email: string)
    requires isEmail(email)
    ensures Utf16Length("\U{1F600}\U{1F600}\U{1F600}") == 6
    ensures ValidLogin(LoginBody(Given(email), Given("\U{1F600}\U{1F600}\U{1F600}")), isEmail)
    ensures ValidSignup(SignupBody(Given("n"), Given(email), Given("\U{1F600}\U{1F600}\U{1F600}"), Absent), isEmail)
  {
  }

  /** No login body gets a token from both routers. */
  lemma LoginRoutesDisjoint(users: seq<Account>, b: LoginBody, isEmail: string -> bool, matches: (string, string) -> bool)
    ensures !(LoginOutcome(users, b, isEmail, matches, false).LoggedIn? && LoginOutcome(users, b, isEmail, matches, true).LoggedIn?)
  {
  }

  lemma {:induction false} FindAppended(users: seq<Account>, a: Account)
    requires !EmailInUse(users, a.email)
    ensures FindByEmail(users + [a], a.email) == Some(a)
  {
    if users != [] {
      assert (users + [a])[1..] == users[1..] + [a];
      assert !EmailInUse(users[1..], a.email) by {
        forall i | 0 <= i < |users[1..]| ensures users[1..][i].email != a.email {
          assert users[1..][i] == users[i + 1];
        }
      }
      FindAppended(users[1..], a);
    }
  }

  /** Signup followed by login with the same e-mail and password: the router of the
      account's role issues a token for it exactly when the password matches its hash;
      the other router answers as for an unknown e-mail. */
  lemma SignedUpCanLogIn(users: seq<Account>, b: SignupBody, isEmail: string -> bool, hashed: string,
                         matches: (string, string) -> bool, asAdmin: bool, viaAdmin: bool)
    requires SignupOutcome(users, b, isEmail, hashed, asAdmin).SignedUp?
    ensures var a := SignupOutcome(users, b, isEmail, hashed, asAdmin).account;
            LoginOutcome(users + [a], LoginBody(b.email, b.password), isEmail, matches, viaAdmin) ==
              if viaAdmin != asAdmin then NoSuchAccount
              else if matches(b.password.value, hashed) then LoggedIn(Auth.Claims(a.id, asAdmin))
              else WrongPassword
  {
    var a := SignupOutcome(users, b, isEmail, hashed, asAdmin).account;
    FindAppended(users, a);
  }

  /** Signup never lets two accounts share an e-mail. */
  lemma SignupKeepsEmailsUnique(users: seq<Account>, b: SignupBody, isEmail: string -> bool, hashed: string, asAdmin: bool)
    requires AccountsValid(users)
    requires SignupOutcome(users, b, isEmail, hashed, asAdmin).SignedUp?
    ensures AccountsValid(users + [SignupOutcome(users, b, isEmail, hashed, asAdmin).account])
  {
  }
}

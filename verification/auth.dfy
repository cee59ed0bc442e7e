/** The authentication server: four request handlers over a store of user
    records keyed by e-mail. The password hash is a parameter of the model:
    `hash(p, salt)` digests a password with a salt (the salt stands in for the
    hashing library's randomness) and `compare(p, d)` checks a password
    against a digest. What the model needs of them is stated as hypotheses
    (`Sound`, `Discriminating`) of the lemmas that use them. */
module AuthServer {
  type Digest = string

  datatype Hasher = Hasher(hash: (string, nat) -> Digest, compare: (string, Digest) -> bool)

  /** A password always matches its own digest, whatever the salt. */
  ghost predicate Sound(h: Hasher)
  {
    forall p, salt :: h.compare(p, h.hash(p, salt))
  }

  /** A password never matches another password's digest. bcrypt reads only
      the first 72 bytes of a password, so it meets this only for passwords
      that already differ within those bytes. */
  ghost predicate Discriminating(h: Hasher)
  {
    forall p, q, salt :: p != q ==> !h.compare(q, h.hash(p, salt))
  }

  /** A stored user: e-mail, user name and password digest. */
  datatype Account = Account(email: string, username: string, passwordHash: Digest)

  type Store = map<string, Account>

  /** Every record sits under its own e-mail, so e-mails are unique, and the
      two text fields the schema requires are non-empty. */
  predicate ValidStore(users: Store)
  {
    forall e :: e in users ==> users[e].email == e && e != "" && users[e].username != ""
  }

  datatype Body = Message(text: string) | LoggedIn(text: string, username: string, email: string)

  /** An HTTP status and a JSON body. */
  datatype Reply = Reply(status: nat, body: Body)

  /** A handler's reply together with the store it leaves behind. */
  datatype Outcome = Outcome(reply: Reply, users: Store)

  const EmailInUse: string := "Email already in use"
  const Registered: string := "User registered successfully!"
  const EmailNotFound: string := "Email not found"
  const InvalidPassword: string := "Invalid password"
  const LoginSuccessful: string := "Login successful"
  const EmailVerified: string := "Email verified. Proceed to reset."
  const ResetSuccessful: string := "✅ Password reset successful!"
  const ServerError: string := "Server error"

  /** POST /signup. A taken e-mail is refused and the store kept; an empty
      e-mail or user name fails the schema's required-field validation when
      the record is saved; otherwise exactly one record is added. */
  function SignupOutcome(users: Store, h: Hasher, email: string, username: string, password: string, salt: nat): (o: Outcome)
    ensures email in users ==> o == Outcome(Reply(400, Message(EmailInUse)), users)
    ensures email !in users && (email == "" || username == "") ==>
      o == Outcome(Reply(500, Message(ServerError)), users)
    ensures o.reply.status == 201 <==> email !in users && email != "" && username != ""
    ensures o.reply.status == 201 ==>
      o.reply.body == Message(Registered) &&
      o.users.Keys == users.Keys + {email} &&
      o.users[email] == Account(email, username, h.hash(password, salt)) &&
      forall e :: e in users ==> o.users[e] == users[e]
    ensures ValidStore(users) ==> ValidStore(o.users)
  {
    if email in users then Outcome(Reply(400, Message(EmailInUse)), users)
    else if email == "" || username == "" then Outcome(Reply(500, Message(ServerError)), users)
    else Outcome(Reply(201, Message(Registered)), users[email := Account(email, username, h.hash(password, salt))])
  }

  /** POST /login: an unknown e-mail, then a password that does not match the
      stored digest, are refused; otherwise the stored name and e-mail are
      returned. */
  function LoginReply(users: Store, h: Hasher, email: string, password: string): (r: Reply)
    ensures email !in users ==> r == Reply(400, Message(EmailNotFound))
    ensures email in users && !h.compare(password, users[email].passwordHash) ==>
      r == Reply(400, Message(InvalidPassword))
    ensures r.status == 200 <==> email in users && h.compare(password, users[email].passwordHash)
    ensures r.status == 200 ==>
      r.body == LoggedIn(LoginSuccessful, users[email].username, users[email].email)
  {
    if email !in users then Reply(400, Message(EmailNotFound))
    else if !h.compare(password, users[email].passwordHash) then Reply(400, Message(InvalidPassword))
    else Reply(200, LoggedIn(LoginSuccessful, users[email].username, users[email].email))
  }

  /** POST /forgot-password: only checks that the e-mail is registered. */
  function ForgotReply(users: Store, email: string): (r: Reply)
    ensures r.status == 200 <==> email in users
    ensures r.status != 200 ==> r == Reply(400, Message(EmailNotFound))
    ensures r.status == 200 ==> r.body == Message(EmailVerified)
  {
    if email !in users then Reply(400, Message(EmailNotFound))
    else Reply(200, Message(EmailVerified))
  }

  /** POST /reset-password: for a registered e-mail, replaces that record's
      digest and nothing else. No token or earlier step is asked for. */
  function ResetOutcome(users: Store, h: Hasher, email: string, password: string, salt: nat): (o: Outcome)
    ensures email !in users ==> o == Outcome(Reply(400, Message(EmailNotFound)), users)
    ensures email in users ==>
      o.reply == Reply(200, Message(ResetSuccessful)) &&
      o.users.Keys == users.Keys &&
      o.users[email] == users[email].(passwordHash := h.hash(password, salt)) &&
      forall e :: e in users && e != email ==> o.users[e] == users[e]
    ensures ValidStore(users) ==> ValidStore(o.users)
  {
    if email !in users then Outcome(Reply(400, Message(EmailNotFound)), users)
    else
      var user := users[email];
      Outcome(Reply(200, Message(ResetSuccessful)), users[email := user.(passwordHash := h.hash(password, salt))])
  }

  // ---------------------------------------------------------------------------
  // Properties across requests

  /** After signing up, the same e-mail and password log in and get back the
      name and e-mail given at sign-up. */
  lemma SignupThenLogin(users: Store, h: Hasher, email: string, username: string, password: string, salt: nat)
    requires Sound(h)
    requires email !in users && email != "" && username != ""
    ensures LoginReply(SignupOutcome(users, h, email, username, password, salt).users, h, email, password)
      == Reply(200, LoggedIn(LoginSuccessful, username, email))
  {
    assert h.compare(password, h.hash(password, salt));
  }

  /** Once a sign-up with a non-empty e-mail and name has been answered, a
      second sign-up with that e-mail is refused and changes nothing, whatever
      name and password it carries. */
  lemma SignupTwice(users: Store, h: Hasher, email: string, username: string, password: string, salt: nat,
                    username2: string, password2: string, salt2: nat)
    requires email != "" && username != ""
    ensures var after := SignupOutcome(users, h, email, username, password, salt).users;
      email in after &&
      SignupOutcome(after, h, email, username2, password2, salt2) == Outcome(Reply(400, Message(EmailInUse)), after)
  {
  }

  /** After a reset, the new password logs in, with the record's name and
      e-mail unchanged. */
  lemma ResetThenLogin(users: Store, h: Hasher, email: string, password: string, salt: nat)
    requires Sound(h)
    requires email in users
    ensures LoginReply(ResetOutcome(users, h, email, password, salt).users, h, email, password)
      == Reply(200, LoggedIn(LoginSuccessful, users[email].username, users[email].email))
  {
    assert h.compare(password, h.hash(password, salt));
  }

  /** After a reset to a different password, the old one no longer logs in. */
  lemma OldPasswordFailsAfterReset(users: Store, h: Hasher, email: string, oldPassword: string, password: string, salt: nat)
    requires Discriminating(h)
    requires email in users && oldPassword != password
    ensures LoginReply(ResetOutcome(users, h, email, password, salt).users, h, email, oldPassword)
      == Reply(400, Message(InvalidPassword))
  {
    assert !h.compare(oldPassword, h.hash(password, salt));
  }

  /** The forgot-password step and the reset succeed for the same e-mails. */
  lemma ForgotAgreesWithReset(users: Store, h: Hasher, email: string, password: string, salt: nat)
    ensures ForgotReply(users, email).status == 200 <==> ResetOutcome(users, h, email, password, salt).reply.status == 200
  {
  }

  /** The store as a mutable object, one method per request handler. */
  class AuthService {
    const hasher: Hasher
    var users: Store

    ghost predicate Valid()
      reads this
    {
      ValidStore(users)
    }

    constructor (hasher: Hasher)
      ensures Valid()
      ensures this.hasher == hasher && users == map[]
    {
      this.hasher := hasher;
      users := map[];
    }

    method Signup(email: string, username: string, password: string, salt: nat) returns (reply: Reply)
      requires Valid()
      modifies this
      ensures Valid()
      ensures Outcome(reply, users) == SignupOutcome(old(users), hasher, email, username, password, salt)
    {
      if email in users {
        return Reply(400, Message(EmailInUse));
      }
      if email == "" || username == "" {
        return Reply(500, Message(ServerError));
      }
      var digest := hasher.hash(password, salt);
      users := users[email := Account(email, username, digest)];
      reply := Reply(201, Message(Registered));
    }

    method Login(email: string, password: string) returns (reply: Reply)
      ensures reply == LoginReply(users, hasher, email, password)
    {
      if email !in users {
        return Reply(400, Message(EmailNotFound));
      }
      var user := users[email];
      var isMatch := hasher.compare(password, user.passwordHash);
      if !isMatch {
        return Reply(400, Message(InvalidPassword));
      }
      reply := Reply(200, LoggedIn(LoginSuccessful, user.username, user.email));
    }

    method Forgot(email: string) returns (reply: Reply)
      ensures reply == ForgotReply(users, email)
    {
      if email !in users {
        return Reply(400, Message(EmailNotFound));
      }
      reply := Reply(200, Message(EmailVerified));
    }

    method Reset(email: string, password: string, salt: nat) returns (reply: Reply)
      requires Valid()
      modifies this
      ensures Valid()
      ensures Outcome(reply, users) == ResetOutcome(old(users), hasher, email, password, salt)
    {
      if email !in users {
        return Reply(400, Message(EmailNotFound));
      }
      var user := users[email];
      var hashedPassword := hasher.hash(password, salt);
      user := user.(passwordHash := hashedPassword);
      users := users[email := user];
      reply := Reply(200, Message(ResetSuccessful));
    }
  }
}

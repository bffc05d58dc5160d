/** The account handlers: registration, login and the password-reset
    protocol. Password hashing and comparison, the random reset token and
    the mail service are outside the model: they arrive as parameters, and
    the mail a handler would send is returned next to its reply. */
module AuthController {
  import opened Base
  import opened Schema
  import opened Tables
  import opened Storage
  import opened UserViews

  const USERNAME_TAKEN := "Username already taken"
  const REGISTERED := "User registered successfully"
  const INVALID_CREDENTIALS := "Invalid credentials"
  const RESET_LINK_SENT := "If that email address is in our database, we will send you a password reset link."
  const INVALID_RESET := "Invalid or expired reset token"
  const PASSWORD_RESET := "Password has been reset successfully"

  /** The free period a new account starts with, 30 days in milliseconds. */
  const TRIAL_LENGTH := 30 * 24 * 60 * 60 * 1000
  /** How long a reset token stays usable, one hour in milliseconds. */
  const RESET_WINDOW := 60 * 60 * 1000

  /** The first user, in insertion order, with the given username. */
  ghost function UserByUsername(st: MemStorage, username: string): Option<User>
    reads st`users, st`userId
  {
    Find(Rows(st.users, st.userId), UserName, username)
  }

  /** The first user, in insertion order, with the given email address. */
  ghost function UserByEmail(st: MemStorage, email: string): Option<User>
    reads st`users, st`userId
  {
    Find(Rows(st.users, st.userId), UserEmail, email)
  }

  // ------------------------------------------------------------ register

  /** A registration body with the expected shape. Optional user columns the
      body may also carry are not used. */
  datatype RegisterForm = RegisterForm(username: string, password: string, email: string, businessName: string)

  /** A business name of at least 2 characters and a well-formed email. */
  predicate RegisterValid(f: RegisterForm, isEmail: string -> bool) {
    |f.businessName| >= 2 && isEmail(f.email)
  }

  /** The user a registration inserts: the stored password is the hash, and
      no role is passed, so the account is an ordinary user. */
  function RegisterUser(f: RegisterForm, hashed: string): NewUser {
    NewUser(f.username, hashed, f.email, Some(f.businessName), None)
  }

  /** The business a registration inserts for the new user: the contact
      columns start empty, the email is the account's, the country is left
      out. */
  function RegisterBusiness(owner: int, f: RegisterForm): NewBusiness {
    NewBusiness(owner, f.businessName, None, Some(""), Some(""), Some(""), Some(""), Some(""),
                None, Some(""), Some(f.email), Some(""))
  }

  /** The subscription a new account starts with: free, active, and running
      for the trial length from the moment of registration. */
  function TrialSubscription(owner: int, now: Timestamp): NewSubscription {
    NewSubscription(owner, Some(Free), None, None, Some("active"), None, Some(now), Some(now + TRIAL_LENGTH))
  }

  /** What registration stores: an ordinary user holding the hash of the
      password, a business of that user under the chosen name, and a free,
      active subscription of that user that ends 30 days after it starts. */
  lemma RegistrationRows(f: RegisterForm, hashed: string, uid: int, bid: int, sid: int, now: Timestamp)
    ensures var u := UserRow(RegisterUser(f, hashed), uid, now);
            u.id == uid && u.role == UserRole && u.password == hashed && u.username == f.username
            && u.resetToken.None? && u.resetTokenExpiry.None?
    ensures var b := BusinessRow(RegisterBusiness(uid, f), bid, now);
            b.userId == uid && b.businessName == f.businessName && b.email == Some(f.email)
    ensures var s := SubscriptionRow(TrialSubscription(uid, now), sid, now);
            && s.userId == uid && s.plan == Free && s.status == "active"
            && s.currentPeriodStart == Some(now) && s.currentPeriodEnd == Some(now + 2592000000)
  {
  }

  /** Registers an account. A taken username is refused before anything is
      written; otherwise the user, their business and their trial
      subscription are created, and the store stays consistent. */
  method Register(st: MemStorage, body: Option<RegisterForm>, isEmail: string -> bool,
                  hash: string -> string, now: Timestamp)
    returns (reply: Reply<()>)
    requires st.Consistent()
    modifies st`users, st`userId, st`businesses, st`businessId, st`subscriptions, st`subscriptionId
    ensures st.Consistent()
    ensures body.None? || !RegisterValid(body.value, isEmail) ==> reply == Fail(BadRequest, VALIDATION_ERROR)
    ensures body.Some? && RegisterValid(body.value, isEmail) && old(UserByUsername(st, body.value.username)).Some? ==>
              reply == Fail(BadRequest, USERNAME_TAKEN)
    ensures reply.status == Created <==>
              body.Some? && RegisterValid(body.value, isEmail) && old(UserByUsername(st, body.value.username)).None?
    ensures reply.status != Created ==>
              && st.users == old(st.users) && st.userId == old(st.userId)
              && st.businesses == old(st.businesses) && st.businessId == old(st.businessId)
              && st.subscriptions == old(st.subscriptions) && st.subscriptionId == old(st.subscriptionId)
    ensures reply.status == Created ==>
              var uid := old(st.userId);
              && reply == Notice(Created, REGISTERED)
              && st.users == old(st.users)[uid := UserRow(RegisterUser(body.value, hash(body.value.password)), uid, now)]
              && st.businesses == old(st.businesses)[old(st.businessId) :=
                   BusinessRow(RegisterBusiness(uid, body.value), old(st.businessId), now)]
              && st.subscriptions == old(st.subscriptions)[old(st.subscriptionId) :=
                   SubscriptionRow(TrialSubscription(uid, now), old(st.subscriptionId), now)]
  {
    if body.None? || !RegisterValid(body.value, isEmail) {
      return Fail(BadRequest, VALIDATION_ERROR);
    }
    var f := body.value;
    var existing := st.GetUserByUsername(f.username);
    if existing.Some? {
      return Fail(BadRequest, USERNAME_TAKEN);
    }
    OpenAccount(st, f, hash(f.password), now);
    reply := Notice(Created, REGISTERED);
  }

  /** The writes of a registration with a free username: the user, then
      their business, then their subscription. */
  method OpenAccount(st: MemStorage, f: RegisterForm, hashed: string, now: Timestamp)
    requires st.Consistent()
    requires forall k :: k in st.users ==> st.users[k].username != f.username
    modifies st`users, st`userId, st`businesses, st`businessId, st`subscriptions, st`subscriptionId
    ensures st.Consistent()
    ensures var uid := old(st.userId);
            && st.users == old(st.users)[uid := UserRow(RegisterUser(f, hashed), uid, now)]
            && st.businesses == old(st.businesses)[old(st.businessId) :=
                 BusinessRow(RegisterBusiness(uid, f), old(st.businessId), now)]
            && st.subscriptions == old(st.subscriptions)[old(st.subscriptionId) :=
                 SubscriptionRow(TrialSubscription(uid, now), old(st.subscriptionId), now)]
  {
    ghost var users0 := st.users;
    var user := st.CreateUser(RegisterUser(f, hashed), now);
    assert user.id !in users0;
    assert forall k :: k in st.businesses ==> st.businesses[k].userId in users0;
    var _ := st.CreateBusiness(RegisterBusiness(user.id, f), now);
    assert forall k :: k in st.subscriptions ==> st.subscriptions[k].userId in users0;
    var _ := st.CreateSubscription(TrialSubscription(user.id, now), now);
  }

  // --------------------------------------------------------------- login

  datatype LoginForm = LoginForm(username: string, password: string)

  /** A username of at least 3 and a password of at least 6 characters. */
  predicate LoginValid(f: LoginForm) {
    |f.username| >= 3 && |f.password| >= 6
  }

  /** Logs a user in. An unknown username and a wrong password get the same
      401; on success the session is given the user's id, which `signedIn`
      returns, and the reply is the user without the password. */
  method Login(st: MemStorage, body: Option<LoginForm>, compare: (string, string) -> bool)
    returns (reply: Reply<UserView>, signedIn: Option<int>)
    requires st.Valid()
    ensures body.None? || !LoginValid(body.value) ==> reply == Fail(BadRequest, VALIDATION_ERROR) && signedIn.None?
    ensures body.Some? && LoginValid(body.value) ==>
              (reply.status == Ok <==>
                 UserByUsername(st, body.value.username).Some?
                 && compare(body.value.password, UserByUsername(st, body.value.username).value.password))
    ensures body.Some? && LoginValid(body.value) && reply.status != Ok ==>
              reply == Fail(Unauthorized, INVALID_CREDENTIALS) && signedIn.None?
    ensures reply.status == Ok ==>
              var u := UserByUsername(st, body.value.username).value;
              && reply == Reply(Ok, Body(Strip(u, false, false))) && signedIn == Some(u.id)
              && u.id in st.users && st.users[u.id] == u && u.username == body.value.username
    ensures reply.status == Ok && st.UniqueUsernames() ==>
              forall k :: k in st.users && st.users[k].username == body.value.username ==> Some(k) == signedIn
  {
    signedIn := None;
    if body.None? || !LoginValid(body.value) {
      return Fail(BadRequest, VALIDATION_ERROR), None;
    }
    var user := st.GetUserByUsername(body.value.username);
    if user.None? {
      return Fail(Unauthorized, INVALID_CREDENTIALS), None;
    }
    if !compare(body.value.password, user.value.password) {
      return Fail(Unauthorized, INVALID_CREDENTIALS), None;
    }
    signedIn := Some(user.value.id);
    reply := Reply(Ok, Body(Strip(user.value, false, false)));
  }

  // ------------------------------------------------------ password reset

  /** The mail a reset request sends: to whom, which token, and the base of
      the link, built from the request's host header. */
  datatype ResetMail = ResetMail(to: string, token: string, appUrl: string)

  /** The link base; an absent host header reads as "undefined". */
  function AppUrl(host: Option<string>): string {
    "http://" + if host.Some? then host.value else "undefined"
  }

  /** The user after a reset token is issued at `now`. */
  function IssueToken(u: User, token: string, now: Timestamp): User {
    u.(resetToken := Some(token), resetTokenExpiry := Some(now + RESET_WINDOW))
  }

  /** The reset-token test: the user holds a non-empty token equal to the
      one presented, and an expiry that `now` has not passed. */
  predicate TokenAccepted(u: User, token: string, now: Timestamp) {
    && u.resetToken.Some? && u.resetToken.value != "" && u.resetToken.value == token
    && u.resetTokenExpiry.Some? && !(now > u.resetTokenExpiry.value)
  }

  /** A reset of the account found by `email` would be accepted at `now`. */
  ghost predicate ResetAccepts(st: MemStorage, email: string, token: string, now: Timestamp)
    reads st`users, st`userId
  {
    UserByEmail(st, email).Some? && TokenAccepted(UserByEmail(st, email).value, token, now)
  }

  /** A freshly issued token is accepted, and only that token, up to and
      including the moment its hour runs out, and never after. */
  lemma IssuedTokenWindow(u: User, token: string, now: Timestamp, presented: string, later: Timestamp)
    requires token != ""
    ensures TokenAccepted(IssueToken(u, token, now), presented, later)
            <==> presented == token && later <= now + RESET_WINDOW
  {
  }

  /** A user whose token was cleared accepts no token at any time. */
  lemma ClearedTokenRejected(u: User, password: string, presented: string, later: Timestamp)
    ensures !TokenAccepted(u.(password := password, resetToken := None, resetTokenExpiry := None), presented, later)
  {
  }

  /** Starts a reset. The reply is the same whether or not the email belongs
      to an account, so it reveals nothing; for an account, the first with
      that email gets a token valid for one hour, and the mail carries it. */
  method ForgotPassword(st: MemStorage, body: Option<string>, isEmail: string -> bool,
                        host: Option<string>, token: string, now: Timestamp)
    returns (reply: Reply<()>, mail: Option<ResetMail>)
    requires st.Consistent()
    requires |token| == 64
    modifies st`users
    ensures st.Consistent()
    ensures body.None? || !isEmail(body.value) ==>
              reply == Fail(BadRequest, VALIDATION_ERROR) && mail.None? && st.users == old(st.users)
    ensures body.Some? && isEmail(body.value) ==> reply == Notice(Ok, RESET_LINK_SENT)
    ensures body.Some? && isEmail(body.value) && old(UserByEmail(st, body.value)).None? ==>
              mail.None? && st.users == old(st.users)
    ensures body.Some? && isEmail(body.value) && old(UserByEmail(st, body.value)).Some? ==>
              var u := old(UserByEmail(st, body.value)).value;
              && st.users == old(st.users)[u.id := IssueToken(u, token, now)]
              && mail == Some(ResetMail(u.email, token, AppUrl(host)))
    ensures body.Some? && isEmail(body.value) && old(UserByEmail(st, body.value)).Some? ==>
              forall presented, later :: ResetAccepts(st, body.value, presented, later)
                                         <==> presented == token && later <= now + RESET_WINDOW
  {
    mail := None;
    if body.None? || !isEmail(body.value) {
      return Fail(BadRequest, VALIDATION_ERROR), None;
    }
    var user := st.GetUserByEmail(body.value);
    if user.None? {
      return Notice(Ok, RESET_LINK_SENT), None;
    }
    var u := user.value;
    StoreToken(st, body.value, u, token, now);
    mail := Some(ResetMail(u.email, token, AppUrl(host)));
    reply := Notice(Ok, RESET_LINK_SENT);
  }

  /** Stores a fresh token on the account a reset request found; that
      account is still the one found by its email afterwards. */
  method StoreToken(st: MemStorage, email: string, u: User, token: string, now: Timestamp)
    requires st.Consistent()
    requires UserByEmail(st, email) == Some(u) && token != ""
    modifies st`users
    ensures st.Consistent()
    ensures st.users == old(st.users)[u.id := IssueToken(u, token, now)]
    ensures forall presented, later :: ResetAccepts(st, email, presented, later)
                                       <==> presented == token && later <= now + RESET_WINDOW
  {
    st.Keyed();
    FindSpec(st.users, UserKey, st.userId, UserEmail, email);
    FindAfterReplace(st.users, UserKey, st.userId, UserEmail, email, IssueToken(u, token, now));
    var _ := st.UpdateUserResetToken(u.id, token, now + RESET_WINDOW);
    forall presented, later ensures ResetAccepts(st, email, presented, later)
                                    <==> presented == token && later <= now + RESET_WINDOW {
      IssuedTokenWindow(u, token, now, presented, later);
    }
  }

  datatype ResetForm = ResetForm(email: string, token: string, password: string)

  /** A well-formed email, a non-empty token and a password of at least 6
      characters. */
  predicate ResetValid(f: ResetForm, isEmail: string -> bool) {
    isEmail(f.email) && |f.token| >= 1 && |f.password| >= 6
  }

  /** Completes a reset. Every failure gets the same 400; on success the
      account's password becomes the hash of the new one and its token is
      cleared, so the same token is refused from then on. */
  method ResetPassword(st: MemStorage, body: Option<ResetForm>, isEmail: string -> bool,
                       hash: string -> string, now: Timestamp)
    returns (reply: Reply<()>)
    requires st.Consistent()
    modifies st`users
    ensures st.Consistent()
    ensures body.None? || !ResetValid(body.value, isEmail) ==>
              reply == Fail(BadRequest, VALIDATION_ERROR) && st.users == old(st.users)
    ensures body.Some? && ResetValid(body.value, isEmail) ==>
              (reply.status == Ok <==> old(ResetAccepts(st, body.value.email, body.value.token, now)))
    ensures body.Some? && ResetValid(body.value, isEmail) && reply.status != Ok ==>
              reply == Fail(BadRequest, INVALID_RESET) && st.users == old(st.users)
    ensures reply.status == Ok ==>
              var u := old(UserByEmail(st, body.value.email)).value;
              && reply == Notice(Ok, PASSWORD_RESET)
              && st.users == old(st.users)[u.id := u.(password := hash(body.value.password),
                                                      resetToken := None, resetTokenExpiry := None)]
    ensures reply.status == Ok ==>
              forall presented, later :: !ResetAccepts(st, body.value.email, presented, later)
  {
    if body.None? || !ResetValid(body.value, isEmail) {
      return Fail(BadRequest, VALIDATION_ERROR);
    }
    var f := body.value;
    var user := st.GetUserByEmail(f.email);
    if user.None? {
      return Fail(BadRequest, INVALID_RESET);
    }
    var u := user.value;
    if u.resetToken.None? || u.resetToken.value == "" || u.resetToken.value != f.token {
      return Fail(BadRequest, INVALID_RESET);
    }
    if u.resetTokenExpiry.None? || now > u.resetTokenExpiry.value {
      return Fail(BadRequest, INVALID_RESET);
    }
    StorePassword(st, f.email, u, hash(f.password));
    reply := Notice(Ok, PASSWORD_RESET);
  }

  /** Replaces the password of the account a reset found and clears its
      token; that account is still the one found by its email afterwards,
      and it accepts no token any more. */
  method StorePassword(st: MemStorage, email: string, u: User, hashed: string)
    requires st.Consistent()
    requires UserByEmail(st, email) == Some(u)
    modifies st`users
    ensures st.Consistent()
    ensures st.users == old(st.users)[u.id := u.(password := hashed, resetToken := None, resetTokenExpiry := None)]
    ensures forall presented, later :: !ResetAccepts(st, email, presented, later)
  {
    var cleared := u.(password := hashed, resetToken := None, resetTokenExpiry := None);
    st.Keyed();
    FindSpec(st.users, UserKey, st.userId, UserEmail, email);
    FindAfterReplace(st.users, UserKey, st.userId, UserEmail, email, cleared);
    var _ := st.UpdateUserPassword(u.id, hashed);
    forall presented, later ensures !ResetAccepts(st, email, presented, later) {
      ClearedTokenRejected(u, hashed, presented, later);
    }
  }
}

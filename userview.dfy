/** What the handlers send back for a user. No handler ever sends the
    password; some also hide the reset token and its expiry. A key that is
    hidden is absent from the JSON document, which is `None` here; a key
    that is present may still hold `null`. */
module UserViews {
  import opened Base
  import opened Schema

  datatype UserView = UserView(
    id: int, username: string, email: string, businessName: Option<string>,
    resetToken: Option<Option<string>>, resetTokenExpiry: Option<Option<Timestamp>>,
    role: Role, createdAt: Timestamp,
    fullName: Option<string>, phone: Option<string>, bio: Option<string>)

  /** The user without the password, and without the reset token or its
      expiry when asked to hide them. */
  function Strip(u: User, hideToken: bool, hideExpiry: bool): (v: UserView)
    ensures v.id == u.id && v.username == u.username && v.role == u.role
    ensures hideToken <==> v.resetToken.None?
    ensures hideExpiry <==> v.resetTokenExpiry.None?
  {
    UserView(u.id, u.username, u.email, u.businessName,
             if hideToken then None else Some(u.resetToken),
             if hideExpiry then None else Some(u.resetTokenExpiry),
             u.role, u.createdAt, u.fullName, u.phone, u.bio)
  }

  /** Two users agree on every field except those the view hides. */
  predicate SameExceptHidden(u: User, w: User, hideToken: bool, hideExpiry: bool) {
    && u.id == w.id && u.username == w.username && u.email == w.email
    && u.businessName == w.businessName && u.role == w.role && u.createdAt == w.createdAt
    && u.fullName == w.fullName && u.phone == w.phone && u.bio == w.bio
    && (!hideToken ==> u.resetToken == w.resetToken)
    && (!hideExpiry ==> u.resetTokenExpiry == w.resetTokenExpiry)
  }

  /** A view tells two users apart exactly when they differ in a field it
      shows: the password, and the reset fields it hides, leave no trace. */
  lemma ViewShowsAllButHidden(u: User, w: User, hideToken: bool, hideExpiry: bool)
    ensures Strip(u, hideToken, hideExpiry) == Strip(w, hideToken, hideExpiry)
            <==> SameExceptHidden(u, w, hideToken, hideExpiry)
  {
    if Strip(u, hideToken, hideExpiry) == Strip(w, hideToken, hideExpiry) {
      assert Strip(u, hideToken, hideExpiry).resetToken == Strip(w, hideToken, hideExpiry).resetToken;
      assert Strip(u, hideToken, hideExpiry).resetTokenExpiry == Strip(w, hideToken, hideExpiry).resetTokenExpiry;
    }
  }

  /** Changing only the password never changes what a view shows. */
  lemma ViewIgnoresPassword(u: User, password: string, hideToken: bool, hideExpiry: bool)
    ensures Strip(u.(password := password), hideToken, hideExpiry) == Strip(u, hideToken, hideExpiry)
  {
    ViewShowsAllButHidden(u.(password := password), u, hideToken, hideExpiry);
  }
}

/** The profile handlers: the signed-in user reads and edits their own
    profile. Replies never carry the password, the reset token or its
    expiry. */
module ProfileController {
  import opened Base
  import opened Schema
  import opened Storage
  import opened UserViews

  const INVALID_PROFILE := "Invalid profile data"
  const USER_NOT_FOUND := "User not found"

  /** A profile body with the expected shape; every field is optional and
      any other key is dropped. */
  datatype ProfileForm = ProfileForm(
    fullName: Option<string>, email: Option<string>, phone: Option<string>, bio: Option<string>)

  /** A full name of at least 2 characters, a well-formed email and a bio of
      at most 500 characters, each when present. */
  predicate ProfileValid(f: ProfileForm, isEmail: string -> bool) {
    && (f.fullName.Some? ==> |f.fullName.value| >= 2)
    && (f.email.Some? ==> isEmail(f.email.value))
    && (f.bio.Some? ==> |f.bio.value| <= 500)
  }

  /** The partial user a profile update merges: only the validated fields,
      never the role. */
  function ProfilePatch(f: ProfileForm): UserPatch {
    UserPatch(f.email, None, f.fullName, f.phone, f.bio)
  }

  /** A profile update changes exactly the fields the body sent and leaves
      the account's identity, role, password and reset fields alone; sending
      the same body twice changes nothing more. */
  lemma ProfileUpdateEffect(u: User, f: ProfileForm)
    ensures var r := MergeUser(u, ProfilePatch(f));
            && r.id == u.id && r.username == u.username && r.password == u.password && r.role == u.role
            && r.resetToken == u.resetToken && r.resetTokenExpiry == u.resetTokenExpiry
            && r.createdAt == u.createdAt && r.businessName == u.businessName
            && r.email == (if f.email.Some? then f.email.value else u.email)
            && r.fullName == (if f.fullName.Some? then f.fullName else u.fullName)
            && r.phone == (if f.phone.Some? then f.phone else u.phone)
            && r.bio == (if f.bio.Some? then f.bio else u.bio)
    ensures MergeUser(MergeUser(u, ProfilePatch(f)), ProfilePatch(f)) == MergeUser(u, ProfilePatch(f))
  {
  }

  /** Updates the session user's profile. The body is checked before the
      user is looked up. */
  method UpdateProfile(st: MemStorage, session: Option<int>, body: Option<ProfileForm>, isEmail: string -> bool)
    returns (reply: Reply<UserView>)
    requires st.Consistent()
    modifies st`users
    ensures st.Consistent()
    ensures SessionUser(session).None? ==> reply == Fail(Unauthorized, UNAUTHORIZED)
    ensures SessionUser(session).Some? && (body.None? || !ProfileValid(body.value, isEmail)) ==>
              reply == Fail(BadRequest, INVALID_PROFILE)
    ensures SessionUser(session).Some? && body.Some? && ProfileValid(body.value, isEmail)
            && SessionUser(session).value !in old(st.users) ==>
              reply == Fail(NotFound, USER_NOT_FOUND)
    ensures reply.status == Ok <==>
              SessionUser(session).Some? && body.Some? && ProfileValid(body.value, isEmail)
              && SessionUser(session).value in old(st.users)
    ensures reply.status != Ok ==> st.users == old(st.users)
    ensures reply.status == Ok ==>
              var id := SessionUser(session).value;
              var u := MergeUser(old(st.users)[id], ProfilePatch(body.value));
              && st.users == old(st.users)[id := u]
              && reply == Reply(Ok, Body(Strip(u, true, true)))
              && u.role == old(st.users)[id].role && u.password == old(st.users)[id].password
  {
    var id := SessionUser(session);
    if id.None? {
      return Fail(Unauthorized, UNAUTHORIZED);
    }
    if body.None? || !ProfileValid(body.value, isEmail) {
      return Fail(BadRequest, INVALID_PROFILE);
    }
    var user := st.GetUser(id.value);
    if user.None? {
      return Fail(NotFound, USER_NOT_FOUND);
    }
    var updated := st.UpdateUser(id.value, ProfilePatch(body.value));
    reply := Reply(Ok, Body(Strip(updated.value, true, true)));
  }

  /** Answers with the session user's profile. */
  method GetProfile(st: MemStorage, session: Option<int>) returns (reply: Reply<UserView>)
    requires st.Valid()
    ensures SessionUser(session).None? ==> reply == Fail(Unauthorized, UNAUTHORIZED)
    ensures SessionUser(session).Some? && SessionUser(session).value !in st.users ==>
              reply == Fail(NotFound, USER_NOT_FOUND)
    ensures reply.status == Ok <==> SessionUser(session).Some? && SessionUser(session).value in st.users
    ensures reply.status == Ok ==>
              && reply == Reply(Ok, Body(Strip(st.users[SessionUser(session).value], true, true)))
              && reply.payload.value.resetToken.None? && reply.payload.value.resetTokenExpiry.None?
  {
    var id := SessionUser(session);
    if id.None? {
      return Fail(Unauthorized, UNAUTHORIZED);
    }
    var user := st.GetUser(id.value);
    if user.None? {
      return Fail(NotFound, USER_NOT_FOUND);
    }
    reply := Reply(Ok, Body(Strip(user.value, true, true)));
  }
}

/**
 * AuthService: signup, password reset, logout, token refresh and the
 * account lookups. The password encoder is an uninterpreted function fixed
 * when the service is built; the JWT service (subject extraction, stored
 * refresh-token check, token issuing) enters as function parameters; the
 * clock as parameters.
 */
module Auth {
  import opened Types
  import opened Repositories

  /** The signup form. */
  datatype SignupRequest = SignupRequest(
    id: string,
    username: string,
    email: string,
    pw: string,
    profileImage: Text)

  /** The token response of a refresh. */
  datatype TokenResponse = TokenResponse(
    accessToken: string,
    refreshToken: string,
    id: string,
    username: string,
    tokenType: string)

  /** What logout hands to the JWT service: the user to log out and the token to blacklist. */
  datatype Revocation = Revocation(userId: string, accessToken: Text)

  /** The scheme prefix of an Authorization header; seven characters. */
  const BEARER: string := "Bearer "

  /** The token inside an Authorization header: one leading "Bearer " removed, anything else kept as it is. */
  function StripBearer(token: Text): (r: Text)
    ensures token.Some? && BEARER <= token.value ==> r.Some? && BEARER + r.value == token.value
    ensures !(token.Some? && BEARER <= token.value) ==> r == token
  {
    if token.Some? && BEARER <= token.value then Some(token.value[7..]) else token
  }

  /** Lemma: adding the prefix and stripping it gives the token back, even when the token itself starts with "Bearer ". */
  lemma StripBearerInverse(t: string)
    ensures StripBearer(Some(BEARER + t)) == Some(t)
    ensures StripBearer(Some(BEARER + BEARER + t)) == Some(BEARER + t)
  {
    assert BEARER <= BEARER + t && (BEARER + t)[7..] == t;
    assert BEARER + BEARER + t == BEARER + (BEARER + t);
  }

  class AuthService {
    const db: Database
    /** PasswordEncoder.encode. */
    const encode: string -> string

    constructor (db: Database, encode: string -> string)
      ensures this.db == db && this.encode == encode
    {
      this.db := db;
      this.encode := encode;
    }

    /**
     * signup: a taken login id is rejected first, then a taken email; a
     * rejection saves nothing. Otherwise exactly one user is added, with the
     * encoded password, together with a penalty record at 0 and an active
     * limits record without dates. The welcome mail is sent last; when
     * sending throws (`mailFails`), the transaction rolls the three rows back.
     */
    method Signup(dto: SignupRequest, mailFails: bool, now: Time, today: Date) returns (r: Result<()>)
      requires db.Valid()
      modifies db`users, db`penalties, db`limits
      ensures db.Valid()
      ensures Has(old(db.users), ById, dto.id) ==> r == Err(DuplicateId) && unchanged(db)
      ensures !Has(old(db.users), ById, dto.id) && Has(old(db.users), ByEmail, dto.email) ==>
                r == Err(DuplicateEmail) && unchanged(db)
      ensures !Has(old(db.users), ById, dto.id) && !Has(old(db.users), ByEmail, dto.email) && mailFails ==>
                r == Err(MailFailed) && unchanged(db)
      ensures r.Ok? <==> !Has(old(db.users), ById, dto.id) && !Has(old(db.users), ByEmail, dto.email) && !mailFails
      ensures r.Ok? ==>
        && db.users == old(db.users) + [User(dto.id, dto.username, dto.email, encode(dto.pw),
                                             dto.profileImage, now, now)]
        && db.penalties == old(db.penalties)[dto.id := PenaltyRecord(0, today)]
        && db.limits == old(db.limits)[dto.id := Limits(true, None, None)]
      ensures RecordsComplete(old(db.users), old(db.penalties), old(db.limits)) ==>
                RecordsComplete(db.users, db.penalties, db.limits)
    {
      if Find(db.users, ById, dto.id).Some? {
        return Err(DuplicateId);
      }
      if Find(db.users, ByEmail, dto.email).Some? {
        return Err(DuplicateEmail);
      }
      var users, penalties, limits := db.users, db.penalties, db.limits;
      var user := User(dto.id, dto.username, dto.email, encode(dto.pw), dto.profileImage, now, now);
      AppendKeepsUnique(db.users, ById, user);
      AppendKeepsUnique(db.users, ByEmail, user);
      HasKeptByAppend(db.users, user);
      db.users := db.users + [user];
      db.penalties := db.penalties[dto.id := PenaltyRecord(0, today)];
      db.limits := db.limits[dto.id := Limits(true, None, None)];
      if mailFails {
        db.users, db.penalties, db.limits := users, penalties, limits;
        return Err(MailFailed);
      }
      r := Ok(());
    }

    /**
     * resetPassword: an unknown id fails, then an email other than the
     * account's; both leave the table as it was. Otherwise only the password
     * (now the encoded new one) and `updatedAt` of that user change.
     */
    method ResetPassword(id: string, email: string, newPw: string, now: Time) returns (r: Result<()>)
      requires db.Valid()
      modifies db`users
      ensures db.Valid()
      ensures !Has(old(db.users), ById, id) ==> r == Err(UnknownId) && unchanged(db)
      ensures Has(old(db.users), ById, id) && UserRow(old(db.users), id).email != email ==>
                r == Err(EmailMismatch) && unchanged(db)
      ensures r.Ok? <==> Has(old(db.users), ById, id) && UserRow(old(db.users), id).email == email
      ensures r.Ok? ==>
        var i := Find(old(db.users), ById, id).value;
        && db.users == old(db.users)[i := old(db.users)[i].(pw := encode(newPw), updatedAt := now)]
        && db.users[i].id == id && db.users[i].email == email
    {
      var found := Find(db.users, ById, id);
      if found.None? {
        return Err(UnknownId);
      }
      var i := found.value;
      if db.users[i].email != email {
        return Err(EmailMismatch);
      }
      var before := db.users;
      db.users := db.users[i := db.users[i].(pw := encode(newPw), updatedAt := now)];
      SameIdsKeepUsers(before, db.users);
      r := Ok(());
    }

    /**
     * logout: strip one "Bearer " prefix, ask the JWT service for the token's
     * subject, and revoke that user's session with the stripped token; a
     * token without a subject revokes nothing.
     */
    method Logout(accessToken: Text, subjectOf: Text -> Option<string>) returns (revoked: Option<Revocation>)
      ensures revoked.Some? <==> subjectOf(StripBearer(accessToken)).Some?
      ensures revoked.Some? ==>
                revoked.value.accessToken == StripBearer(accessToken)
                && Some(revoked.value.userId) == subjectOf(StripBearer(accessToken))
    {
      var token := accessToken;
      if token.Some? && BEARER <= token.value {
        token := Some(token.value[7..]);
      }
      var userId := subjectOf(token);
      revoked := None;
      if userId.Some? {
        revoked := Some(Revocation(userId.value, token));
      }
    }

    /**
     * refreshToken: a token without a subject fails, then one that is not the
     * stored refresh token of its subject, then a subject with no account.
     * Otherwise a new access token is issued for that user and the same
     * refresh token is handed back, typed "Bearer".
     */
    function RefreshToken(refreshToken: string, subjectOf: string -> Option<string>,
                          isStored: (string, string) -> bool, reissue: User -> string): (r: Result<TokenResponse>)
      reads db
      ensures subjectOf(refreshToken).None? ==> r == Err(InvalidToken)
      ensures subjectOf(refreshToken).Some? && !isStored(refreshToken, subjectOf(refreshToken).value) ==>
                r == Err(RefreshRejected)
      ensures (&& subjectOf(refreshToken).Some?
               && isStored(refreshToken, subjectOf(refreshToken).value)
               && !Has(db.users, ById, subjectOf(refreshToken).value)) ==> r == Err(UserNotFound)
      ensures r.Ok? <==> (&& subjectOf(refreshToken).Some?
                          && isStored(refreshToken, subjectOf(refreshToken).value)
                          && Has(db.users, ById, subjectOf(refreshToken).value))
      ensures r.Ok? ==>
                && Some(r.value.id) == subjectOf(refreshToken)
                && isStored(refreshToken, r.value.id)
                && Has(db.users, ById, r.value.id)
                && r.value.refreshToken == refreshToken
                && r.value.tokenType == "Bearer"
                && r.value.username == UserRow(db.users, r.value.id).username
                && r.value.accessToken == reissue(UserRow(db.users, r.value.id))
    {
      match subjectOf(refreshToken)
      case None => Err(InvalidToken)
      case Some(userId) =>
        if !isStored(refreshToken, userId) then Err(RefreshRejected)
        else
          match Find(db.users, ById, userId)
          case None => Err(UserNotFound)
          case Some(i) =>
            var user := db.users[i];
            Ok(TokenResponse(reissue(user), refreshToken, user.id, user.username, "Bearer"))
    }

    /** isIdDuplicate: true exactly when some user has this login id. */
    function IsIdDuplicate(id: string): (r: bool)
      reads db
      ensures r <==> exists i :: 0 <= i < |db.users| && db.users[i].id == id
    {
      Find(db.users, ById, id).Some?
    }

    /**
     * isNameDuplicate: whether some user has this nickname. Signup does not
     * keep nicknames unique, and the single-result finder throws when two
     * users share one.
     */
    function IsNameDuplicate(username: string): (r: Result<bool>)
      reads db
      ensures r.Err? <==> Ambiguous(db.users, ByUsername, username)
      ensures r.Err? ==> r.error == NonUniqueResult
      ensures r.Ok? ==> (r.value <==> exists i :: 0 <= i < |db.users| && db.users[i].username == username)
    {
      match FindOne(db.users, ByUsername, username)
      case Err(e) => Err(e)
      case Ok(found) => Ok(found.Some?)
    }

    /**
     * findIdByEmail: the login id of the user with this email; an email nobody
     * uses fails, and so would one shared by two users (which signup prevents).
     */
    function FindIdByEmail(email: string): (r: Result<string>)
      reads db
      ensures r == Err(EmailNotRegistered) <==> !exists i :: 0 <= i < |db.users| && db.users[i].email == email
      ensures r == Err(NonUniqueResult) <==> Ambiguous(db.users, ByEmail, email)
      ensures r.Ok? ==> exists i :: 0 <= i < |db.users| && db.users[i].email == email && db.users[i].id == r.value
      ensures r.Ok? ==> forall i :: 0 <= i < |db.users| && db.users[i].email == email ==> db.users[i].id == r.value
      ensures Unique(db.users, ByEmail) ==> r != Err(NonUniqueResult)
    {
      match FindOne(db.users, ByEmail, email)
      case Err(e) => Err(e)
      case Ok(None) => Err(EmailNotRegistered)
      case Ok(Some(i)) => Ok(db.users[i].id)
    }
  }

  /** Lemma: appending a user keeps every existing user findable. */
  lemma HasKeptByAppend(users: seq<User>, u: User)
    ensures forall c, key :: Has(users, c, key) ==> Has(users + [u], c, key)
  {
    forall c, key | Has(users, c, key)
      ensures Has(users + [u], c, key)
    {
      var i :| 0 <= i < |users| && Field(users[i], c) == key;
      assert (users + [u])[i] == users[i];
    }
  }

  /** Lemma: a table whose login ids are, row for row, those of another holds the same users. */
  lemma SameIdsKeepUsers(before: seq<User>, after: seq<User>)
    requires |before| == |after|
    requires forall j :: 0 <= j < |after| ==> after[j].id == before[j].id
    ensures forall key :: Has(before, ById, key) ==> Has(after, ById, key)
  {
  }
}

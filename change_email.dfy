/**
 * The two email-change endpoints (crates/core/src/auth/api/change_email.rs).
 *
 * A request runs a chain of early-return guards, then one UPDATE that puts
 * the new address, a fresh code and the current time into the caller's row.
 * A confirmation checks the code's length, then one UPDATE that moves the
 * pending address into place in every row whose code matches and has not
 * expired. The user table is a map from user id to row; the clock, the
 * random code, address validation, redirect validation and email delivery
 * are parameters.
 */
module ChangeEmail {
  import opened Wrappers
  import opened Bytes
  import IdCodec

  /** How long a verification code stays valid, in seconds. */
  const TtlSec: int := 3600

  /** How soon after one verification email another may be requested, in seconds. */
  const RateLimitSec: int := 10

  datatype InternalCause = InvalidTimestamp | EmailFailure

  datatype AuthError =
    | BadRequest(msg: string)
    | Forbidden
    | Internal(cause: InternalCause)
    /** Whatever `validate_redirect` rejects a redirect target with. */
    | RedirectRejected(msg: string)

  /** How the request body arrived; only JSON may leave out the old address. */
  datatype Encoding = JsonBody | Multipart | Form

  datatype ChangeEmailRequest = ChangeEmailRequest(csrfToken: string, oldEmail: Option<string>, newEmail: string)

  /** The authenticated caller, as the session extractor gives it. */
  datatype User = User(uuid: IdCodec.Uuid, csrfToken: string)

  /** The columns of a user row that the two endpoints read or write; SQL NULL is `None`. */
  datatype UserRow = UserRow(
    email: string,
    verified: bool,
    pendingEmail: Option<string>,
    verificationCode: Option<string>,
    codeSentAt: Option<int>)

  type Rows = map<IdCodec.Uuid, UserRow>

  /** What a handler ends in: a response, an error, or a panic naming the row count. */
  datatype Outcome = Ok(body: string) | Err(error: AuthError) | Panic(rowsAffected: nat)

  // ----- change_email_request_handler -----

  /**
   * The guards before the UPDATE, in the handler's order; `None` lets the
   * request through. `validEmail` stands for the address validator and
   * `representable` for whether chrono can build a date from a timestamp.
   */
  function RequestGuard(enc: Encoding, req: ChangeEmailRequest, user: User, dbUser: Option<UserRow>,
                        validEmail: string -> bool, representable: int -> bool, now: int): (r: Option<AuthError>)
    ensures r.Some? ==> r.value in {BadRequest("Invalid CSRF token"), BadRequest("Missing old email address"),
                                    BadRequest("Invalid email address"), Forbidden, Internal(InvalidTimestamp),
                                    BadRequest("verification sent already")}
    ensures r.None? ==> req.csrfToken == user.csrfToken && validEmail(req.newEmail) && dbUser.Some?
    ensures r == Some(Forbidden) <==>
      req.csrfToken == user.csrfToken && (enc == JsonBody || req.oldEmail.Some?)
      && validEmail(req.newEmail) && dbUser.None?
  {
    if req.csrfToken != user.csrfToken then Some(BadRequest("Invalid CSRF token"))
    else if enc != JsonBody && req.oldEmail.None? then Some(BadRequest("Missing old email address"))
    else if !validEmail(req.newEmail) then Some(BadRequest("Invalid email address"))
    else if dbUser.None? then Some(Forbidden)
    else match dbUser.value.codeSentAt
      case None => None
      case Some(t) =>
        if !representable(t) then Some(Internal(InvalidTimestamp))
        else if now - t < RateLimitSec then Some(BadRequest("verification sent already"))
        else None
  }

  /**
   * The UPDATE's WHERE clause for one row. `CASE :old_email WHEN NULL` compares
   * with `=`, and a comparison with NULL is never true, so an absent old
   * address matches no row.
   */
  predicate RequestMatches(key: IdCodec.Uuid, row: UserRow, id: IdCodec.Uuid, oldEmail: Option<string>) {
    key == id && oldEmail.Some? && row.email == oldEmail.value
  }

  /** The row after the request's SET clause. */
  function Requested(row: UserRow, newEmail: string, code: string, now: int): UserRow {
    row.(pendingEmail := Some(newEmail), verificationCode := Some(code), codeSentAt := Some(now))
  }

  /** The table after the request's UPDATE. */
  function ApplyRequest(rows: Rows, id: IdCodec.Uuid, oldEmail: Option<string>, newEmail: string,
                        code: string, now: int): (r: Rows)
    ensures r.Keys == rows.Keys
    ensures forall k :: k in rows && k != id ==> r[k] == rows[k]
    ensures id in rows && RequestMatches(id, rows[id], id, oldEmail) ==>
      r[id].email == rows[id].email && r[id].verified == rows[id].verified
      && r[id].pendingEmail == Some(newEmail) && r[id].verificationCode == Some(code)
      && r[id].codeSentAt == Some(now)
    ensures id in rows && !RequestMatches(id, rows[id], id, oldEmail) ==> r == rows
  {
    map k | k in rows :: if RequestMatches(k, rows[k], id, oldEmail) then Requested(rows[k], newEmail, code, now) else rows[k]
  }

  /** The number of rows the request's UPDATE reports. */
  function RequestAffected(rows: Rows, id: IdCodec.Uuid, oldEmail: Option<string>): nat {
    |set k | k in rows && RequestMatches(k, rows[k], id, oldEmail)|
  }

  /** The match on the row count, with `emailSent` for composing and sending the email. */
  function RequestDispatch(affected: nat, emailSent: bool): (r: Outcome)
    ensures affected == 0 <==> r == Err(BadRequest("failed to change email"))
    ensures affected == 1 <==> (r.Ok? || r == Err(Internal(EmailFailure)))
    ensures affected > 1 <==> r == Panic(affected)
    ensures r.Ok? <==> affected == 1 && emailSent
  {
    if affected == 0 then Err(BadRequest("failed to change email"))
    else if affected == 1 then
      if emailSent then Ok("Verification email sent.") else Err(Internal(EmailFailure))
    else Panic(affected)
  }

  /** The guards let a request through exactly when each of them is satisfied. */
  lemma RequestGuardPasses(enc: Encoding, req: ChangeEmailRequest, user: User, dbUser: Option<UserRow>,
                           validEmail: string -> bool, representable: int -> bool, now: int)
    ensures RequestGuard(enc, req, user, dbUser, validEmail, representable, now).None? <==>
      (req.csrfToken == user.csrfToken
       && (enc == JsonBody || req.oldEmail.Some?)
       && validEmail(req.newEmail)
       && dbUser.Some?
       && (dbUser.value.codeSentAt.Some? ==>
             representable(dbUser.value.codeSentAt.value) && now - dbUser.value.codeSentAt.value >= RateLimitSec))
  {
  }

  /** A CSRF mismatch is reported whatever else is wrong with the request. */
  lemma RequestCsrfFirst(enc: Encoding, req: ChangeEmailRequest, user: User, dbUser: Option<UserRow>,
                         validEmail: string -> bool, representable: int -> bool, now: int)
    ensures RequestGuard(enc, req, user, dbUser, validEmail, representable, now) == Some(BadRequest("Invalid CSRF token"))
      <==> req.csrfToken != user.csrfToken
  {
  }

  /** Only a form or multipart request without an old address is refused for lacking one. */
  lemma RequestOldEmailRule(enc: Encoding, req: ChangeEmailRequest, user: User, dbUser: Option<UserRow>,
                            validEmail: string -> bool, representable: int -> bool, now: int)
    ensures RequestGuard(enc, req, user, dbUser, validEmail, representable, now) == Some(BadRequest("Missing old email address"))
      <==> req.csrfToken == user.csrfToken && enc != JsonBody && req.oldEmail.None?
  {
  }

  /** A second request within ten seconds of the last email is refused, and one after is not, by this guard. */
  lemma RequestRateLimit(enc: Encoding, req: ChangeEmailRequest, user: User, row: UserRow, t: int,
                         validEmail: string -> bool, representable: int -> bool, now: int)
    requires req.csrfToken == user.csrfToken && (enc == JsonBody || req.oldEmail.Some?) && validEmail(req.newEmail)
    requires row.codeSentAt == Some(t) && representable(t)
    ensures RequestGuard(enc, req, user, Some(row), validEmail, representable, now) == Some(BadRequest("verification sent already"))
      <==> now < t + RateLimitSec
    ensures now >= t + RateLimitSec ==> RequestGuard(enc, req, user, Some(row), validEmail, representable, now).None?
  {
  }

  /** The request's UPDATE can only hit the caller's own row, so it never reports two. */
  lemma RequestAffectedCount(rows: Rows, id: IdCodec.Uuid, oldEmail: Option<string>)
    ensures RequestAffected(rows, id, oldEmail) == (if id in rows && RequestMatches(id, rows[id], id, oldEmail) then 1 else 0)
    ensures RequestAffected(rows, id, oldEmail) <= 1
  {
    var hit := set k | k in rows && RequestMatches(k, rows[k], id, oldEmail);
    if id in rows && RequestMatches(id, rows[id], id, oldEmail) {
      assert hit == {id};
    } else {
      assert hit == {};
    }
  }

  /** Whatever the table holds, the request handler never reaches its panic. */
  lemma RequestNeverPanics(rows: Rows, id: IdCodec.Uuid, oldEmail: Option<string>, emailSent: bool)
    ensures !RequestDispatch(RequestAffected(rows, id, oldEmail), emailSent).Panic?
  {
    RequestAffectedCount(rows, id, oldEmail);
  }

  /**
   * A JSON request without an old address passes the guards but changes no
   * row and fails with "failed to change email".
   */
  lemma RequestWithoutOldEmail(rows: Rows, id: IdCodec.Uuid, newEmail: string, code: string, now: int, emailSent: bool)
    ensures ApplyRequest(rows, id, None, newEmail, code, now) == rows
    ensures RequestDispatch(RequestAffected(rows, id, None), emailSent) == Err(BadRequest("failed to change email"))
  {
    RequestAffectedCount(rows, id, None);
  }

  // ----- change_email_confirm_handler -----

  /**
   * The checks before the UPDATE: the redirect target (`redirectCheck` is
   * what `validate_redirect` returns) and the code's byte length.
   */
  function ConfirmGuard(redirectCheck: Option<AuthError>, code: string, codeLength: nat): (r: Option<AuthError>)
    ensures redirectCheck.Some? ==> r == redirectCheck
    ensures redirectCheck.None? ==> (r.None? <==> |Utf8(code)| == codeLength)
    ensures r.Some? && redirectCheck.None? ==> r == Some(BadRequest("Invalid code"))
  {
    if redirectCheck.Some? then redirectCheck
    else if |Utf8(code)| != codeLength then Some(BadRequest("Invalid code"))
    else None
  }

  /** The confirmation's WHERE clause for one row: same code, sent within the TTL, something pending. */
  predicate ConfirmMatches(row: UserRow, code: string, now: int) {
    row.verificationCode == Some(code)
    && row.codeSentAt.Some? && row.codeSentAt.value > now - TtlSec
    && row.pendingEmail.Some?
  }

  /** The row after the confirmation's SET clause. */
  function Confirmed(row: UserRow): (r: UserRow)
    requires row.pendingEmail.Some?
    ensures r.email == row.pendingEmail.value && r.verified
    ensures r.pendingEmail.None? && r.verificationCode.None? && r.codeSentAt.None?
  {
    UserRow(row.pendingEmail.value, true, None, None, None)
  }

  /** The table after the confirmation's UPDATE. */
  function ApplyConfirm(rows: Rows, code: string, now: int): (r: Rows)
    ensures r.Keys == rows.Keys
    ensures forall k :: k in rows && !ConfirmMatches(rows[k], code, now) ==> r[k] == rows[k]
    ensures forall k :: k in rows && ConfirmMatches(rows[k], code, now) ==>
      r[k].email == rows[k].pendingEmail.value && r[k].verified
      && r[k].pendingEmail.None? && r[k].verificationCode.None? && r[k].codeSentAt.None?
  {
    map k | k in rows :: if ConfirmMatches(rows[k], code, now) then Confirmed(rows[k]) else rows[k]
  }

  /** The rows the confirmation applies to. */
  function ConfirmHits(rows: Rows, code: string, now: int): set<IdCodec.Uuid> {
    set k | k in rows && ConfirmMatches(rows[k], code, now)
  }

  /** The number of rows the confirmation's UPDATE reports. */
  function ConfirmAffected(rows: Rows, code: string, now: int): nat {
    |ConfirmHits(rows, code, now)|
  }

  /** Where a confirmed user is sent: the given target, else the profile page if logged in, else the login page. */
  function RedirectTarget(redirectUri: Option<string>, loggedIn: bool, profileUi: string, loginUi: string): string {
    if redirectUri.Some? then redirectUri.value else if loggedIn then profileUi else loginUi
  }

  /** The match on the row count; a success body is the redirect location. */
  function ConfirmDispatch(affected: nat, redirectUri: Option<string>, loggedIn: bool,
                           profileUi: string, loginUi: string): (r: Outcome)
    ensures affected == 0 <==> r == Err(BadRequest("Invalid verification code"))
    ensures affected == 1 <==> r.Ok?
    ensures affected > 1 <==> r == Panic(affected)
    ensures r.Ok? && redirectUri.Some? ==> r.body == redirectUri.value
    ensures r.Ok? && redirectUri.None? ==> r.body == (if loggedIn then profileUi else loginUi)
  {
    if affected == 0 then Err(BadRequest("Invalid verification code"))
    else if affected == 1 then Ok(RedirectTarget(redirectUri, loggedIn, profileUi, loginUi))
    else Panic(affected)
  }

  /** A code is dead once an hour has passed since it was sent. */
  lemma ConfirmExpires(row: UserRow, code: string, now: int)
    requires row.codeSentAt.Some? && now >= row.codeSentAt.value + TtlSec
    ensures !ConfirmMatches(row, code, now)
  {
  }

  /** The confirmation changes the table exactly when it reports a row. */
  lemma ConfirmChangesIffAffected(rows: Rows, code: string, now: int)
    ensures ConfirmAffected(rows, code, now) == 0 <==> ApplyConfirm(rows, code, now) == rows
  {
    var hits := ConfirmHits(rows, code, now);
    if hits == {} {
      forall k | k in rows ensures !ConfirmMatches(rows[k], code, now) {
        assert k !in hits;
      }
      assert ApplyConfirm(rows, code, now) == rows;
    } else {
      var k :| k in hits;
      assert ApplyConfirm(rows, code, now)[k].pendingEmail.None?;
    }
  }

  /** Confirming the same code again, at the same time or later, matches no row. */
  lemma ConfirmOnce(rows: Rows, code: string, now: int, later: int)
    requires now <= later
    ensures ConfirmAffected(ApplyConfirm(rows, code, now), code, later) == 0
  {
    assert ConfirmHits(ApplyConfirm(rows, code, now), code, later) == {};
  }

  /** Two rows holding the same live code make the confirmation panic, after both were updated. */
  lemma ConfirmPanicsOnSharedCode(rows: Rows, a: IdCodec.Uuid, b: IdCodec.Uuid, code: string, now: int,
                                  redirectUri: Option<string>, loggedIn: bool, profileUi: string, loginUi: string)
    requires a in rows && b in rows && a != b
    requires ConfirmMatches(rows[a], code, now) && ConfirmMatches(rows[b], code, now)
    ensures ConfirmDispatch(ConfirmAffected(rows, code, now), redirectUri, loggedIn, profileUi, loginUi).Panic?
    ensures ApplyConfirm(rows, code, now)[a].verified && ApplyConfirm(rows, code, now)[b].verified
  {
    var hits := ConfirmHits(rows, code, now);
    assert {a, b} <= hits;
    assert |{a, b}| == 2;
    SubsetCard({a, b}, hits);
  }

  lemma SubsetCard<T>(small: set<T>, big: set<T>)
    requires small <= big
    ensures |small| <= |big|
  {
    assert big == small + (big - small);
  }

  /**
   * A successful request followed by its confirmation within the hour makes
   * the new address the verified email of the caller's row, provided no
   * other row holds the same code.
   */
  lemma RequestThenConfirm(rows: Rows, id: IdCodec.Uuid, newEmail: string, code: string, now: int, later: int)
    requires id in rows
    requires forall k :: k in rows && k != id ==> rows[k].verificationCode != Some(code)
    requires now <= later < now + TtlSec
    ensures var requested := ApplyRequest(rows, id, Some(rows[id].email), newEmail, code, now);
      ConfirmAffected(requested, code, later) == 1
      && ApplyConfirm(requested, code, later)[id] == rows[id].(email := newEmail, verified := true,
           pendingEmail := None, verificationCode := None, codeSentAt := None)
  {
    var requested := ApplyRequest(rows, id, Some(rows[id].email), newEmail, code, now);
    assert ConfirmMatches(requested[id], code, later);
    assert ConfirmHits(requested, code, later) == {id};
  }

  /** The user table that both endpoints update. */
  class UserTable {
    var rows: Rows

    constructor(initial: Rows)
      ensures rows == initial
    {
      rows := initial;
    }

    /**
     * `change_email_request_handler`: `now` is the clock (read both by the
     * rate limit and by `UNIXEPOCH()`), `code` the random code.
     */
    method Request(enc: Encoding, req: ChangeEmailRequest, user: User, now: int, code: string,
                   validEmail: string -> bool, representable: int -> bool, emailSent: bool)
      returns (out: Outcome)
      modifies this
      ensures !out.Panic?
      ensures var guard := RequestGuard(enc, req, user,
                             if user.uuid in old(rows) then Some(old(rows)[user.uuid]) else None,
                             validEmail, representable, now);
        if guard.Some? then out == Err(guard.value) && rows == old(rows)
        else (rows == ApplyRequest(old(rows), user.uuid, req.oldEmail, req.newEmail, code, now)
              && out == RequestDispatch(RequestAffected(old(rows), user.uuid, req.oldEmail), emailSent))
    {
      var dbUser := if user.uuid in rows then Some(rows[user.uuid]) else None;
      var guard := RequestGuard(enc, req, user, dbUser, validEmail, representable, now);
      if guard.Some? {
        return Err(guard.value);
      }
      var affected := RequestAffected(rows, user.uuid, req.oldEmail);
      RequestNeverPanics(rows, user.uuid, req.oldEmail, emailSent);
      rows := ApplyRequest(rows, user.uuid, req.oldEmail, req.newEmail, code, now);
      out := RequestDispatch(affected, emailSent);
    }

    /**
     * `change_email_confirm_handler`: `loggedIn` is whether a session came
     * with the request; `codeLength`, `profileUi` and `loginUi` are the
     * server's constants.
     */
    method Confirm(code: string, redirectUri: Option<string>, loggedIn: bool, now: int,
                   redirectCheck: Option<AuthError>, codeLength: nat, profileUi: string, loginUi: string)
      returns (out: Outcome)
      modifies this
      ensures var guard := ConfirmGuard(redirectCheck, code, codeLength);
        if guard.Some? then out == Err(guard.value) && rows == old(rows)
        else (rows == ApplyConfirm(old(rows), code, now)
              && out == ConfirmDispatch(ConfirmAffected(old(rows), code, now), redirectUri, loggedIn, profileUi, loginUi))
    {
      var guard := ConfirmGuard(redirectCheck, code, codeLength);
      if guard.Some? {
        return Err(guard.value);
      }
      var affected := ConfirmAffected(rows, code, now);
      rows := ApplyConfirm(rows, code, now);
      out := ConfirmDispatch(affected, redirectUri, loggedIn, profileUi, loginUi);
    }
  }
}

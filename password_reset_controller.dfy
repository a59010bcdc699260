/**
 * The password-reset handlers: request a reset link, check a reset token, and
 * set a new password with it. The users table, the reset-token table and the
 * mails handed to the mail service form one store, a class whose fields the
 * two writing handlers update step by step.
 */
module PasswordResetController {
  import opened Options
  import opened Text

  /** A reset token is valid for one hour after it is issued. */
  const TOKEN_LIFETIME_MS := 3600000
  const MIN_PASSWORD_LENGTH := 6

  datatype UserRow = UserRow(id: int, name: string, email: string, password: string, isActive: bool, updatedAt: int)

  datatype TokenRow = TokenRow(email: string, userId: int, createdAt: int, expiresAt: int, used: bool)

  /** A reset mail handed to the mail service, carrying the token in its link. */
  datatype Mail = Mail(to: string, token: string)

  datatype TokenError = UnknownToken | TokenExpired | TokenAlreadyUsed

  /** The token model's verdict on a token. */
  datatype Validation =
    | Valid(email: string, userId: int, userName: Option<string>, expiresAt: int)
    | Invalid(error: TokenError)

  /** What each reply says, one constructor per `res.json` of the handlers. */
  datatype Message =
    | EmailRequired
    | LinkSentIfRegistered
    | AccountInactive
    | TooManyRequests
    | MailNotSent
    | LinkSent(email: string)
    | TokenRequired
    | TokenRejected(error: TokenError)
    | TokenAccepted(email: string, userName: Option<string>, expiresAt: int)
    | ResetFieldsRequired
    | PasswordMismatch
    | PasswordTooShort
    | UserNotFound
    | PasswordChanged(email: string)

  /** The HTTP status each reply is sent with. */
  function Status(m: Message): int {
    match m
    case LinkSentIfRegistered | LinkSent(_) | TokenAccepted(_, _, _) | PasswordChanged(_) => 200
    case TooManyRequests => 429
    case MailNotSent => 500
    case _ => 400
  }

  /** The `success` flag of each reply. */
  predicate Success(m: Message) {
    m.LinkSentIfRegistered? || m.LinkSent? || m.TokenAccepted? || m.PasswordChanged?
  }

  /** To a caller, an unknown address and a delivered link look alike in status and `success`. */
  lemma UnknownEmailIndistinguishable(email: string)
    ensures Status(LinkSentIfRegistered) == Status(LinkSent(email))
    ensures Success(LinkSentIfRegistered) && Success(LinkSent(email))
    ensures Success(LinkSentIfRegistered) != Success(AccountInactive)
  {
  }

  /** `SELECT ... FROM users WHERE email = $1`, first row. */
  function FindUserByEmail(users: seq<UserRow>, email: string): (r: Option<UserRow>)
    ensures r.None? <==> forall u :: u in users ==> u.email != email
    ensures r.Some? ==> r.value in users && r.value.email == email
  {
    if users == [] then None
    else if users[0].email == email then Some(users[0])
    else FindUserByEmail(users[1..], email)
  }

  /** The name of the user with id `id`, if any (the token model joins it in). */
  function NameOfUser(users: seq<UserRow>, id: int): (r: Option<string>)
    ensures r.None? <==> forall u :: u in users ==> u.id != id
    ensures r.Some? ==> exists u :: u in users && u.id == id && u.name == r.value
  {
    if users == [] then None
    else if users[0].id == id then Some(users[0].name)
    else NameOfUser(users[1..], id)
  }

  predicate HasUser(users: seq<UserRow>, id: int) {
    exists u :: u in users && u.id == id
  }

  /**
   * `UPDATE users SET password = $1, updated_at = NOW() WHERE id = $2` at the
   * instant `now`: only those two columns of the rows with that id change.
   */
  function SetPassword(users: seq<UserRow>, id: int, hashed: string, now: int): (r: seq<UserRow>)
    ensures |r| == |users|
    ensures forall i :: 0 <= i < |r| ==>
              r[i].id == users[i].id && r[i].email == users[i].email && r[i].name == users[i].name
              && r[i].isActive == users[i].isActive
    ensures forall i :: 0 <= i < |r| ==> r[i].password == if users[i].id == id then hashed else users[i].password
    ensures forall i :: 0 <= i < |r| ==> r[i].updatedAt == if users[i].id == id then now else users[i].updatedAt
  {
    seq(|users|, i requires 0 <= i < |users| =>
      if users[i].id == id then users[i].(password := hashed, updatedAt := now) else users[i])
  }

  /** The users table's unique keys: no two rows share an id or an email. */
  ghost predicate UniqueUsers(users: seq<UserRow>) {
    forall i, j :: 0 <= i < j < |users| ==> users[i].id != users[j].id && users[i].email != users[j].email
  }

  /** With unique ids, writing the password of an existing user changes that one row and no other. */
  lemma SetPasswordChangesOneRow(users: seq<UserRow>, k: int, hashed: string, now: int)
    requires UniqueUsers(users) && 0 <= k < |users|
    ensures SetPassword(users, users[k].id, hashed, now) == users[k := users[k].(password := hashed, updatedAt := now)]
  {
  }

  /** Every stored token expires exactly one lifetime after it was issued. */
  ghost predicate WellFormedTokens(tokens: map<string, TokenRow>) {
    forall t :: t in tokens ==> tokens[t].expiresAt == tokens[t].createdAt + TOKEN_LIFETIME_MS
  }

  /**
   * The token model's check at instant `now`: the token must be known, not past
   * its expiry, and unused, and these are tested in that order.
   */
  function Validate(tokens: map<string, TokenRow>, users: seq<UserRow>, token: string, now: int): (v: Validation)
    ensures v.Valid? <==> token in tokens && now <= tokens[token].expiresAt && !tokens[token].used
    ensures token !in tokens ==> v == Invalid(UnknownToken)
    ensures token in tokens && now > tokens[token].expiresAt ==> v == Invalid(TokenExpired)
    ensures token in tokens && now <= tokens[token].expiresAt && tokens[token].used ==> v == Invalid(TokenAlreadyUsed)
    ensures v.Valid? ==> && v.email == tokens[token].email && v.userId == tokens[token].userId
                         && v.expiresAt == tokens[token].expiresAt
                         && v.userName == NameOfUser(users, tokens[token].userId)
  {
    if token !in tokens then Invalid(UnknownToken)
    else
      var row := tokens[token];
      if now > row.expiresAt then Invalid(TokenExpired)
      else if row.used then Invalid(TokenAlreadyUsed)
      else Valid(row.email, row.userId, NameOfUser(users, row.userId), row.expiresAt)
  }

  /** In a table of well-formed tokens, a token is refused as expired exactly when more than an hour has passed since it was issued. */
  lemma ExpiresAnHourAfterIssue(tokens: map<string, TokenRow>, users: seq<UserRow>, token: string, now: int)
    requires WellFormedTokens(tokens) && token in tokens
    ensures Validate(tokens, users, token, now) == Invalid(TokenExpired) <==> now > tokens[token].createdAt + TOKEN_LIFETIME_MS
  {
  }

  /** Once a token is marked used it is never accepted again, at any later instant. */
  lemma UsedTokenNeverValid(tokens: map<string, TokenRow>, users: seq<UserRow>, token: string, now: int)
    requires token in tokens && tokens[token].used
    ensures Validate(tokens, users, token, now) ==
            if now > tokens[token].expiresAt then Invalid(TokenExpired) else Invalid(TokenAlreadyUsed)
  {
  }

  /** The verdict on a token depends on its own row only: adding or changing another token's row leaves it as it is. */
  lemma ValidationIsStable(tokens: map<string, TokenRow>, users: seq<UserRow>, token: string, now: int,
                           other: string, otherRow: TokenRow)
    requires other != token
    ensures Validate(tokens[other := otherRow], users, token, now) == Validate(tokens, users, token, now)
  {
  }

  /**
   * The input checks of resetPassword, in order: all three given, the two
   * passwords equal, at least six characters. None means they all pass.
   */
  function ResetInputCheck(token: Option<string>, newPassword: Option<string>,
                           confirmPassword: Option<string>): (r: Option<Message>)
    ensures r.None? <==> Given(token) && Given(newPassword) && Given(confirmPassword)
                         && newPassword == confirmPassword && |newPassword.value| >= MIN_PASSWORD_LENGTH
    ensures !(Given(token) && Given(newPassword) && Given(confirmPassword)) ==> r == Some(ResetFieldsRequired)
    ensures Given(token) && Given(newPassword) && Given(confirmPassword) && newPassword != confirmPassword
            ==> r == Some(PasswordMismatch)
    ensures (Given(token) && Given(newPassword) && Given(confirmPassword) && newPassword == confirmPassword
             && |newPassword.value| < MIN_PASSWORD_LENGTH) ==> r == Some(PasswordTooShort)
    ensures r.Some? ==> Status(r.value) == 400 && !Success(r.value)
  {
    if !Given(token) || !Given(newPassword) || !Given(confirmPassword) then Some(ResetFieldsRequired)
    else if newPassword.value != confirmPassword.value then Some(PasswordMismatch)
    else if |newPassword.value| < MIN_PASSWORD_LENGTH then Some(PasswordTooShort)
    else None
  }

  /** requestPasswordReset reaches the token-issuing step: a known, active address within the rate limit. */
  predicate MayIssue(users: seq<UserRow>, email: Option<string>, withinRateLimit: bool) {
    && Given(email)
    && FindUserByEmail(users, email.value).Some?
    && FindUserByEmail(users, email.value).value.isActive
    && withinRateLimit
  }

  class ResetStore {
    var users: seq<UserRow>
    var tokens: map<string, TokenRow>
    /** Every reset mail handed to the mail service, oldest first. */
    var mails: seq<Mail>

    ghost predicate Valid()
      reads this
    {
      UniqueUsers(users) && WellFormedTokens(tokens)
    }

    constructor (users: seq<UserRow>, tokens: map<string, TokenRow>)
      requires UniqueUsers(users) && WellFormedTokens(tokens)
      ensures Valid()
      ensures this.users == users && this.tokens == tokens && mails == []
    {
      this.users := users;
      this.tokens := tokens;
      mails := [];
    }

    /**
     * requestPasswordReset at instant `now`. The rate-limit model answers
     * `withinRateLimit`, the token model draws the unused string `token`, and the
     * mail service reports `delivered`.
     */
    method RequestPasswordReset(email: Option<string>, withinRateLimit: bool, token: string, now: int,
                                delivered: bool) returns (m: Message)
      requires Valid()
      requires token !in tokens
      modifies this
      ensures Valid()
      ensures users == old(users)
      ensures !Given(email) ==> m == EmailRequired
      ensures Given(email) && FindUserByEmail(users, email.value).None? ==> m == LinkSentIfRegistered
      ensures (Given(email) && FindUserByEmail(users, email.value).Some?
               && !FindUserByEmail(users, email.value).value.isActive) ==> m == AccountInactive
      ensures (Given(email) && FindUserByEmail(users, email.value).Some?
               && FindUserByEmail(users, email.value).value.isActive && !withinRateLimit) ==> m == TooManyRequests
      ensures MayIssue(users, email, withinRateLimit) ==> m == if delivered then LinkSent(email.value) else MailNotSent
      ensures MayIssue(users, email, withinRateLimit) ==>
                && tokens == old(tokens)[token := TokenRow(email.value, FindUserByEmail(users, email.value).value.id,
                                                           now, now + TOKEN_LIFETIME_MS, false)]
                && mails == old(mails) + [Mail(email.value, token)]
      ensures !MayIssue(users, email, withinRateLimit) ==> tokens == old(tokens) && mails == old(mails)
      ensures Success(m) ==> m == LinkSentIfRegistered || (delivered && token in tokens)
    {
      if !Given(email) {
        return EmailRequired;
      }
      var user := FindUserByEmail(users, email.value);
      if user.None? {
        return LinkSentIfRegistered;
      }
      if !user.value.isActive {
        return AccountInactive;
      }
      if !withinRateLimit {
        return TooManyRequests;
      }
      tokens := tokens[token := TokenRow(email.value, user.value.id, now, now + TOKEN_LIFETIME_MS, false)];
      mails := mails + [Mail(email.value, token)];
      if !delivered {
        return MailNotSent;
      }
      return LinkSent(email.value);
    }

    /** validateResetToken at instant `now`: a pure read of the store. */
    function ValidateResetToken(token: Option<string>, now: int): (m: Message)
      reads this
      ensures !Given(token) ==> m == TokenRequired
      ensures m.TokenAccepted? <==> Given(token) && token.value in tokens
                                    && now <= tokens[token.value].expiresAt && !tokens[token.value].used
      ensures m.TokenAccepted? ==> && m.email == tokens[token.value].email
                                   && m.expiresAt == tokens[token.value].expiresAt
                                   && m.userName == NameOfUser(users, tokens[token.value].userId)
      ensures Given(token) && !m.TokenAccepted? ==> m == TokenRejected(Validate(tokens, users, token.value, now).error)
      ensures Valid() && Given(token) && token.value in tokens ==>
                (m == TokenRejected(TokenExpired) <==> now > tokens[token.value].createdAt + TOKEN_LIFETIME_MS)
    {
      if !Given(token) then TokenRequired
      else
        match Validate(tokens, users, token.value, now)
        case Invalid(error) => TokenRejected(error)
        case Valid(email, _, userName, expiresAt) => TokenAccepted(email, userName, expiresAt)
    }

    /**
     * resetPassword at instant `now`, with `hash` standing for bcrypt. The
     * password is written first; only when a user row was updated is the
     * token marked used.
     */
    method ResetPassword(token: Option<string>, newPassword: Option<string>, confirmPassword: Option<string>,
                         now: int, hash: string -> string) returns (m: Message)
      requires Valid()
      modifies this
      ensures Valid()
      ensures mails == old(mails)
      ensures ResetInputCheck(token, newPassword, confirmPassword).Some?
              ==> m == ResetInputCheck(token, newPassword, confirmPassword).value
      ensures ResetInputCheck(token, newPassword, confirmPassword).None?
              && Validate(old(tokens), old(users), token.value, now).Invalid?
              ==> m == TokenRejected(Validate(old(tokens), old(users), token.value, now).error)
      ensures ResetInputCheck(token, newPassword, confirmPassword).None?
              && Validate(old(tokens), old(users), token.value, now).Valid?
              && !HasUser(old(users), Validate(old(tokens), old(users), token.value, now).userId)
              ==> m == UserNotFound
      ensures m.PasswordChanged? <==>
                && ResetInputCheck(token, newPassword, confirmPassword).None?
                && Validate(old(tokens), old(users), token.value, now).Valid?
                && HasUser(old(users), Validate(old(tokens), old(users), token.value, now).userId)
      ensures m.PasswordChanged? ==>
                && m.email == old(tokens)[token.value].email
                && users == SetPassword(old(users), old(tokens)[token.value].userId, hash(newPassword.value), now)
                && tokens == old(tokens)[token.value := old(tokens)[token.value].(used := true)]
      ensures m.PasswordChanged? ==>
                exists k :: 0 <= k < |old(users)| && users == old(users)[k := old(users)[k].(password := hash(newPassword.value), updatedAt := now)]
      ensures !m.PasswordChanged? ==> users == old(users) && tokens == old(tokens)
    {
      var rejected := ResetInputCheck(token, newPassword, confirmPassword);
      if rejected.Some? {
        return rejected.value;
      }
      var validation := Validate(tokens, users, token.value, now);
      if validation.Invalid? {
        return TokenRejected(validation.error);
      }
      var hashed := hash(newPassword.value);
      if !HasUser(users, validation.userId) {
        return UserNotFound;
      }
      var k :| 0 <= k < |users| && users[k].id == validation.userId;
      SetPasswordChangesOneRow(users, k, hashed, now);
      users := SetPassword(users, validation.userId, hashed, now);
      tokens := tokens[token.value := tokens[token.value].(used := true)];
      return PasswordChanged(validation.email);
    }
  }

  /**
   * The reset flow on a store with one active user: the link is
   * sent, the token checks out, the reset succeeds and sets the hashed
   * password, and a second reset with the same token is refused as used.
   */
  method ResetTwice(now: int, hash: string -> string)
    returns (requested: Message, checked: Message, first: Message, second: Message, stored: string, stampedAt: int)
    ensures requested == LinkSent("ana@example.com")
    ensures checked == TokenAccepted("ana@example.com", Some("Ana"), now + TOKEN_LIFETIME_MS)
    ensures first == PasswordChanged("ana@example.com") && stored == hash("secret7") && stampedAt == now + 1000
    ensures second == TokenRejected(TokenAlreadyUsed)
  {
    var store := new ResetStore([UserRow(1, "Ana", "ana@example.com", "old-hash", true, 0)], map[]);
    requested := store.RequestPasswordReset(Some("ana@example.com"), true, "t0k3n", now, true);
    checked := store.ValidateResetToken(Some("t0k3n"), now);
    first := store.ResetPassword(Some("t0k3n"), Some("secret7"), Some("secret7"), now + 1000, hash);
    stored := store.users[0].password;
    stampedAt := store.users[0].updatedAt;
    second := store.ResetPassword(Some("t0k3n"), Some("secret7"), Some("secret7"), now + 2000, hash);
  }

  /** After the hour has passed the same token is refused as expired, used or not. */
  method ExpiredAfterAnHour(now: int) returns (checked: Message)
    ensures checked == TokenRejected(TokenExpired)
  {
    var store := new ResetStore([UserRow(1, "Ana", "ana@example.com", "old-hash", true, 0)], map[]);
    var requested := store.RequestPasswordReset(Some("ana@example.com"), true, "t0k3n", now, false);
    checked := store.ValidateResetToken(Some("t0k3n"), now + TOKEN_LIFETIME_MS + 1);
  }
}

/**
 * AccountWorkflowService: single-use verification tokens, password-reset
 * tokens, passwordless sign-in tokens and the per-user request throttle, all
 * kept in one expiring key-value cache.
 *
 * Pure functions describe one step on the cache; the class holds the cache
 * and the messages handed to the email and SMS providers, and its methods
 * are proved to perform those steps.
 */
module AccountWorkflow {
  import opened Wrappers
  import opened Text
  import opened Domain

  const PASSWORD_RESET_TOKEN_EXPIRED := "Password reset token has expired (or already been used)."
  const VERIFY_TOKEN_EXPIRED := "Verification token is invalid (it may have expired, or already been used)."
  const VERIFY_OR_RESET_EXPIRE_IN_SECONDS := 60 * 60 * 2
  const SIGNIN_EXPIRE_IN_SECONDS := 60 * 60

  // ---------------------------------------------------------------------
  // Cache contents and keys
  // ---------------------------------------------------------------------

  /** A verification payload as stored; payloads written before phone verification existed carry no channel. */
  datatype VerificationPayload = VerificationPayload(studyId: string, userId: string, channel: Option<ChannelType>)

  datatype VerificationData = VerificationData(studyId: string, userId: string, channel: ChannelType)

  /** The kinds of value the service stores: plain strings (emails, sign-in tokens), serialised
    * verification payloads and phones, and throttle counters. */
  datatype CacheValue =
    | Text(text: string)
    | Verification(payload: VerificationPayload)
    | PhoneJson(phone: Phone)
    | Counter(count: int)

  datatype CacheEntry = CacheEntry(value: CacheValue, ttlSeconds: int)

  type Cache = map<string, CacheEntry>

  datatype ThrottleRequestType = EMAIL_SIGNIN | PHONE_SIGNIN | VERIFY_EMAIL | VERIFY_PHONE

  /** The enum constant's name in lower case. */
  function ThrottleTypeName(t: ThrottleRequestType): string {
    match t
    case EMAIL_SIGNIN => "email_signin"
    case PHONE_SIGNIN => "phone_signin"
    case VERIFY_EMAIL => "verify_email"
    case VERIFY_PHONE => "verify_phone"
  }

  function ThrottleKey(t: ThrottleRequestType, userId: string): string {
    "channel-throttling:" + ThrottleTypeName(t) + ":" + userId
  }

  /** Each (request type, user) pair has a counter of its own. */
  lemma ThrottleKeyInjective(t1: ThrottleRequestType, u1: string, t2: ThrottleRequestType, u2: string)
    requires ThrottleKey(t1, u1) == ThrottleKey(t2, u2)
    ensures t1 == t2 && u1 == u2
  {
    var k := ThrottleKey(t1, u1);
    var n1, n2 := ThrottleTypeName(t1), ThrottleTypeName(t2);
    ThrottleTypeNameLength(t1);
    ThrottleTypeNameLength(t2);
    assert k[19..31] == n1 && k[19..31] == n2;
    ThrottleTypeNameInjective(t1, t2);
    assert k[32..] == u1 && k[32..] == u2;
  }

  lemma ThrottleTypeNameLength(t: ThrottleRequestType)
    ensures |ThrottleTypeName(t)| == 12
  {
  }

  /** No two request types share a name. */
  lemma ThrottleTypeNameInjective(t1: ThrottleRequestType, t2: ThrottleRequestType)
    requires ThrottleTypeName(t1) == ThrottleTypeName(t2)
    ensures t1 == t2
  {
    var n1, n2 := ThrottleTypeName(t1), ThrottleTypeName(t2);
    assert n1[0] == n2[0] && n1[7] == n2[7];
  }

  function EmailSignInKey(email: string, studyId: string): string {
    email + ":" + studyId + ":signInRequest"
  }

  function PhoneSignInKey(number: string, studyId: string): string {
    number + ":" + studyId + ":phoneSignInRequest"
  }

  function EmailResetKey(sptoken: string, studyId: string): string {
    sptoken + ":" + studyId
  }

  function PhoneResetKey(sptoken: string, studyId: string): string {
    sptoken + ":phone:" + studyId
  }

  /** The sign-in request carries the identifier its channel's key is built from. */
  predicate HasChannelIdentifier(channel: ChannelType, signIn: SignIn) {
    (channel == EMAIL ==> signIn.email.Some?) && (channel == PHONE ==> signIn.phone.Some?)
  }

  function SignInCacheKey(channel: ChannelType, signIn: SignIn): string
    requires HasChannelIdentifier(channel, signIn)
  {
    match channel
    case EMAIL => EmailSignInKey(signIn.email.value, signIn.studyId)
    case PHONE => PhoneSignInKey(signIn.phone.value.number, signIn.studyId)
  }

  /** A six-character code shown as its first three characters, a dash, and the next three. */
  function FormatPhoneToken(token: string): (r: string)
    requires |token| >= 6
    ensures |r| == 7 && r[3] == '-'
    ensures r[..3] + r[4..] == token[..6]
  {
    token[..3] + "-" + token[3..6]
  }

  /** A string read back from the cache; a value of another kind fails to deserialise. */
  function ReadText(cache: Cache, key: string): (r: Result<Option<string>, BridgeError>)
    ensures r == Ok(None) <==> key !in cache
    ensures (r.Ok? && r.value.Some?) <==> key in cache && cache[key].value.Text?
    ensures r.Ok? && r.value.Some? ==> cache[key].value == Text(r.value.value)
  {
    if key !in cache then Ok(None)
    else if cache[key].value.Text? then Ok(Some(cache[key].value.text))
    else Err(Deserialization)
  }

  // ---------------------------------------------------------------------
  // The request throttle
  // ---------------------------------------------------------------------

  /** The value of a throttle counter; a missing key counts as zero. */
  function Count(cache: Cache, key: string): int {
    if key in cache && cache[key].value.Counter? then cache[key].value.count else 0
  }

  /** One throttle call: increment the counter and (re)set its expiry. */
  function AfterIncrement(cache: Cache, key: string, timeout: int): (r: Cache)
    ensures key in r && Count(r, key) == Count(cache, key) + 1 && r[key].ttlSeconds == timeout
    ensures forall k :: k != key ==> (k in r <==> k in cache) && (k in cache ==> r[k] == cache[k])
  {
    cache[key := CacheEntry(Counter(Count(cache, key) + 1), timeout)]
  }

  /** n throttle calls on the same key. */
  function AfterCalls(cache: Cache, key: string, timeout: int, n: nat): Cache {
    if n == 0 then cache else AfterIncrement(AfterCalls(cache, key, timeout, n - 1), key, timeout)
  }

  lemma {:induction false} CountAfterCalls(cache: Cache, key: string, timeout: int, n: nat)
    ensures Count(AfterCalls(cache, key, timeout, n), key) == Count(cache, key) + n
    ensures forall k :: k != key ==> (k in AfterCalls(cache, key, timeout, n) <==> k in cache)
    ensures forall k :: k != key && k in cache ==> AfterCalls(cache, key, timeout, n)[k] == cache[k]
  {
    if n > 0 {
      CountAfterCalls(cache, key, timeout, n - 1);
    }
  }

  /** From an empty counter, calls 1..max pass and every later call is throttled. */
  lemma NthCallThrottled(cache: Cache, key: string, timeout: int, maxRequests: int, n: nat)
    requires key !in cache
    ensures Count(AfterCalls(cache, key, timeout, n + 1), key) > maxRequests <==> n + 1 > maxRequests
  {
    CountAfterCalls(cache, key, timeout, n + 1);
  }

  // ---------------------------------------------------------------------
  // Verification tokens
  // ---------------------------------------------------------------------

  /** Reading a payload back: the stored channel, or EMAIL for a payload without one; a payload
    * with a blank study or user id is refused by the data's constructor. */
  function DecodeVerification(v: CacheValue): (r: Result<VerificationData, BridgeError>)
    ensures r.Ok? <==> v.Verification? && !IsBlank(v.payload.studyId) && !IsBlank(v.payload.userId)
    ensures r.Ok? ==> r.value.studyId == v.payload.studyId && r.value.userId == v.payload.userId
    ensures r.Ok? ==> (v.payload.channel.Some? ==> r.value.channel == v.payload.channel.value)
    ensures r.Ok? ==> (v.payload.channel.None? ==> r.value.channel == EMAIL)
  {
    if v.Verification? && !IsBlank(v.payload.studyId) && !IsBlank(v.payload.userId) then
      Ok(VerificationData(v.payload.studyId, v.payload.userId, v.payload.channel.GetOr(EMAIL)))
    else Err(Deserialization)
  }

  function SaveCache(cache: Cache, sptoken: string, payload: VerificationPayload): Cache {
    cache[sptoken := CacheEntry(Verification(payload), VERIFY_OR_RESET_EXPIRE_IN_SECONDS)]
  }

  function RestoreOutcome(cache: Cache, sptoken: string): Result<Option<VerificationData>, BridgeError> {
    if IsBlank(sptoken) then Err(IllegalArgument)
    else if sptoken !in cache then Ok(None)
    else match DecodeVerification(cache[sptoken].value)
      case Ok(d) => Ok(Some(d))
      case Err(e) => Err(e)
  }

  /** A found token is removed before its payload is read. */
  function RestoreCache(cache: Cache, sptoken: string): (r: Cache)
    ensures sptoken !in r || IsBlank(sptoken)
    ensures forall k :: k != sptoken ==> (k in r <==> k in cache) && (k in r ==> r[k] == cache[k])
  {
    if !IsBlank(sptoken) && sptoken in cache then cache - {sptoken} else cache
  }

  /** A saved payload is restored once, with the channel it was saved with. */
  lemma SaveRestoreRoundTrip(cache: Cache, sptoken: string, studyId: string, userId: string, channel: ChannelType)
    requires !IsBlank(sptoken) && !IsBlank(studyId) && !IsBlank(userId)
    ensures RestoreOutcome(SaveCache(cache, sptoken, VerificationPayload(studyId, userId, Some(channel))), sptoken)
      == Ok(Some(VerificationData(studyId, userId, channel)))
  {
  }

  /** A second restore of the same token finds nothing. */
  lemma RestoreSingleUse(cache: Cache, sptoken: string)
    requires !IsBlank(sptoken)
    ensures RestoreOutcome(RestoreCache(cache, sptoken), sptoken) == Ok(None)
  {
  }

  // ---------------------------------------------------------------------
  // Passwordless sign-in tokens
  // ---------------------------------------------------------------------

  /** Issuing a sign-in token once the study check has passed: nothing for an unknown account or a
    * throttled request; otherwise the outstanding token, or a new one stored for an hour. */
  function SignInIssue(cache: Cache, channel: ChannelType, signIn: SignIn, shouldThrottle: bool, newToken: string,
                       accounts: AccountId -> Option<Account>, maxRequests: int, timeout: int)
    : (Result<Option<string>, BridgeError>, Cache)
    requires HasChannelIdentifier(channel, signIn)
  {
    var account := accounts(AccountIdOf(signIn));
    if account.None? then (Ok(None), cache)
    else
      var throttleKey := ThrottleKey(if channel == EMAIL then EMAIL_SIGNIN else PHONE_SIGNIN, account.value.id);
      var c1 := if shouldThrottle then AfterIncrement(cache, throttleKey, timeout) else cache;
      if shouldThrottle && Count(c1, throttleKey) > maxRequests then (Ok(None), c1)
      else
        var key := SignInCacheKey(channel, signIn);
        match ReadText(c1, key)
        case Err(e) => (Err(e), c1)
        case Ok(Some(t)) => (Ok(Some(t)), c1)
        case Ok(None) => (Ok(Some(newToken)), c1[key := CacheEntry(Text(newToken), SIGNIN_EXPIRE_IN_SECONDS)])
  }

  /** Signing in with a channel token: the stored token must equal the request's, and is then consumed. */
  function ChannelSignInStep(cache: Cache, channel: ChannelType, signIn: SignIn): (r: (Result<AccountId, BridgeError>, Cache))
    requires HasChannelIdentifier(channel, signIn)
    ensures var key := SignInCacheKey(channel, signIn);
      r.0.Ok? <==> key in cache && cache[key].value.Text? && signIn.token == Some(cache[key].value.text)
    ensures r.0.Ok? ==> r.0.value == AccountIdOf(signIn) && r.1 == cache - {SignInCacheKey(channel, signIn)}
    ensures r.0.Err? ==> r.1 == cache
  {
    var key := SignInCacheKey(channel, signIn);
    match ReadText(cache, key)
    case Err(e) => (Err(e), cache)
    case Ok(None) => (Err(AuthenticationFailed), cache)
    case Ok(Some(stored)) =>
      if signIn.token != Some(stored) then (Err(AuthenticationFailed), cache)
      else (Ok(AccountIdOf(signIn)), cache - {key})
  }

  /** An unknown account gets no token and leaves the cache as it was. */
  lemma UnknownAccountStoresNothing(cache: Cache, channel: ChannelType, signIn: SignIn, shouldThrottle: bool,
                                    newToken: string, accounts: AccountId -> Option<Account>, maxRequests: int, timeout: int)
    requires HasChannelIdentifier(channel, signIn) && accounts(AccountIdOf(signIn)).None?
    ensures SignInIssue(cache, channel, signIn, shouldThrottle, newToken, accounts, maxRequests, timeout) == (Ok(None), cache)
  {
  }

  /** An outstanding token is handed out again and the sign-in key is left as it was. */
  lemma OutstandingTokenReused(cache: Cache, channel: ChannelType, signIn: SignIn, newToken: string,
                               accounts: AccountId -> Option<Account>, maxRequests: int, timeout: int, t: string)
    requires HasChannelIdentifier(channel, signIn) && accounts(AccountIdOf(signIn)).Some?
    requires SignInCacheKey(channel, signIn) in cache && cache[SignInCacheKey(channel, signIn)].value == Text(t)
    ensures SignInIssue(cache, channel, signIn, false, newToken, accounts, maxRequests, timeout) == (Ok(Some(t)), cache)
  {
  }

  /** The token issued for a request signs that request in. */
  lemma IssuedTokenSignsIn(cache: Cache, channel: ChannelType, signIn: SignIn, shouldThrottle: bool, newToken: string,
                           accounts: AccountId -> Option<Account>, maxRequests: int, timeout: int, t: string)
    requires HasChannelIdentifier(channel, signIn)
    requires SignInIssue(cache, channel, signIn, shouldThrottle, newToken, accounts, maxRequests, timeout).0 == Ok(Some(t))
    ensures ChannelSignInStep(SignInIssue(cache, channel, signIn, shouldThrottle, newToken, accounts, maxRequests, timeout).1,
                              channel, signIn.(token := Some(t))).0 == Ok(AccountIdOf(signIn))
  {
    var c := SignInIssue(cache, channel, signIn, shouldThrottle, newToken, accounts, maxRequests, timeout).1;
    var key := SignInCacheKey(channel, signIn);
    assert SignInCacheKey(channel, signIn.(token := Some(t))) == key;
    assert key in c && c[key].value == Text(t);
  }

  /** A token that signed in once does not sign in again. */
  lemma SignInTokenSingleUse(cache: Cache, channel: ChannelType, signIn: SignIn)
    requires HasChannelIdentifier(channel, signIn)
    requires ChannelSignInStep(cache, channel, signIn).0.Ok?
    ensures ChannelSignInStep(ChannelSignInStep(cache, channel, signIn).1, channel, signIn).0 == Err(AuthenticationFailed)
  {
  }

  // ---------------------------------------------------------------------
  // Password reset
  // ---------------------------------------------------------------------

  /** resetPassword: the token may have gone out by email or by SMS, so both keys are tried. Neither
    * present is the expired-token error; otherwise both are removed and the email entry wins. */
  function ResetStep(cache: Cache, sptoken: string, studyId: string, accounts: AccountId -> Option<Account>)
    : (r: (Result<Account, BridgeError>, Cache))
    ensures var emailKey, phoneKey := EmailResetKey(sptoken, studyId), PhoneResetKey(sptoken, studyId);
      emailKey !in cache && phoneKey !in cache ==> r == (Err(BadRequest(PASSWORD_RESET_TOKEN_EXPIRED)), cache)
    ensures ReadText(cache, EmailResetKey(sptoken, studyId)).Err? ==> r == (Err(ReadText(cache, EmailResetKey(sptoken, studyId)).error), cache)
    ensures var emailKey, phoneKey := EmailResetKey(sptoken, studyId), PhoneResetKey(sptoken, studyId);
      ReadText(cache, emailKey).Ok? && (emailKey in cache || phoneKey in cache) ==> r.1 == cache - {emailKey, phoneKey}
    ensures r.0.Ok? ==> r.1 == cache - {EmailResetKey(sptoken, studyId), PhoneResetKey(sptoken, studyId)}
  {
    var emailKey, phoneKey := EmailResetKey(sptoken, studyId), PhoneResetKey(sptoken, studyId);
    match ReadText(cache, emailKey)
    case Err(e) => (Err(e), cache)
    case Ok(email) =>
      if email.None? && phoneKey !in cache then (Err(BadRequest(PASSWORD_RESET_TOKEN_EXPIRED)), cache)
      else
        var c1 := cache - {emailKey, phoneKey};
        var accountId :=
          if email.Some? then Some(ForEmail(studyId, email.value))
          else if cache[phoneKey].value.PhoneJson? then Some(ForPhone(studyId, cache[phoneKey].value.phone))
          else None;
        if accountId.None? then (Err(Deserialization), c1)
        else match accounts(accountId.value)
          case None => (Err(EntityNotFound("Account")), c1)
          case Some(a) => (Ok(a), c1)
  }

  /** When the emailed entry is present the account is looked up by that email, whatever the phone entry holds. */
  lemma ResetPrefersEmail(cache: Cache, sptoken: string, studyId: string, accounts: AccountId -> Option<Account>, email: string)
    requires EmailResetKey(sptoken, studyId) in cache && cache[EmailResetKey(sptoken, studyId)].value == Text(email)
    ensures ResetStep(cache, sptoken, studyId, accounts).0 ==
      (if accounts(ForEmail(studyId, email)).Some? then Ok(accounts(ForEmail(studyId, email)).value)
       else Err(EntityNotFound("Account")))
  {
  }

  /** Without an emailed entry, the account is looked up by the phone the SMS entry holds; both keys are gone
    * whether or not the account exists. */
  lemma ResetByPhone(cache: Cache, sptoken: string, studyId: string, accounts: AccountId -> Option<Account>, phone: Phone)
    requires EmailResetKey(sptoken, studyId) !in cache
    requires PhoneResetKey(sptoken, studyId) in cache && cache[PhoneResetKey(sptoken, studyId)].value == PhoneJson(phone)
    ensures ResetStep(cache, sptoken, studyId, accounts) ==
      ((if accounts(ForPhone(studyId, phone)).Some? then Ok(accounts(ForPhone(studyId, phone)).value)
        else Err(EntityNotFound("Account"))),
       cache - {EmailResetKey(sptoken, studyId), PhoneResetKey(sptoken, studyId)})
  {
  }

  /** A reset token works once: a second reset with it is the expired-token error. */
  lemma ResetTokenSingleUse(cache: Cache, sptoken: string, studyId: string, accounts: AccountId -> Option<Account>)
    requires ResetStep(cache, sptoken, studyId, accounts).0.Ok?
    ensures ResetStep(ResetStep(cache, sptoken, studyId, accounts).1, sptoken, studyId, accounts).0
      == Err(BadRequest(PASSWORD_RESET_TOKEN_EXPIRED))
  {
  }

  // ---------------------------------------------------------------------
  // The service
  // ---------------------------------------------------------------------

  datatype MessageKind = VerifyEmailMessage | VerifyPhoneMessage | ResetPasswordMessage | AccountExistsMessage
    | EmailSignInMessage | PhoneSignInMessage

  datatype Recipient = ToEmail(email: string) | ToPhone(phone: Phone)

  /** A message handed to the email or SMS provider, with the token variables it carries. */
  datatype Message = Message(kind: MessageKind, to: Recipient, sptoken: Option<string>, signInToken: Option<string>)

  datatype PasswordChange = PasswordChange(account: Account, password: string)

  /** sendPasswordResetRelatedEmail, from cache c0 and outbox o0 to c and o with result r: the email is stored
    * under the reset key for two hours and the reset token mailed; for the account-exists message a sign-in
    * token is issued too when the study allows email sign-in. */
  predicate ResetEmailSent(c0: Cache, o0: seq<Message>, c: Cache, o: seq<Message>, r: Result<(), BridgeError>,
                           study: Study, email: string, includeEmailSignIn: bool, kind: MessageKind, sptoken: string,
                           signInNewToken: string, accounts: AccountId -> Option<Account>, maxRequests: int, timeout: int)
  {
    var c1 := c0[EmailResetKey(sptoken, study.identifier) := CacheEntry(Text(email), VERIFY_OR_RESET_EXPIRE_IN_SECONDS)];
    var signIn := SignIn(study.identifier, Some(email), None, None, None, None);
    if includeEmailSignIn && study.emailSignInEnabled then
      var (issued, c2) := SignInIssue(c1, EMAIL, signIn, false, signInNewToken, accounts, maxRequests, timeout);
      c == c2 &&
      (issued.Err? ==> r == Err(issued.error) && o == o0) &&
      (issued.Ok? ==> r.Ok? && o == o0 + [Message(kind, ToEmail(email), Some(sptoken), issued.value)])
    else
      r.Ok? && c == c1 && o == o0 + [Message(kind, ToEmail(email), Some(sptoken), None)]
  }

  /** sendPasswordResetRelatedSMS: the phone is stored under the phone reset key and the reset token texted;
    * for the account-exists message a phone sign-in token is always issued, in its dashed form. */
  predicate ResetSmsSent(c0: Cache, o0: seq<Message>, c: Cache, o: seq<Message>, r: Result<(), BridgeError>,
                         study: Study, phone: Phone, includePhoneSignIn: bool, kind: MessageKind, sptoken: string,
                         signInNewToken: string, accounts: AccountId -> Option<Account>, maxRequests: int, timeout: int)
  {
    var c1 := c0[PhoneResetKey(sptoken, study.identifier) := CacheEntry(PhoneJson(phone), VERIFY_OR_RESET_EXPIRE_IN_SECONDS)];
    var signIn := SignIn(study.identifier, None, Some(phone), None, None, None);
    if includePhoneSignIn then
      var (issued, c2) := SignInIssue(c1, PHONE, signIn, false, signInNewToken, accounts, maxRequests, timeout);
      c == c2 &&
      (issued.Err? ==> r == Err(issued.error) && o == o0) &&
      (issued == Ok(None) ==> r.Ok? && o == o0 + [Message(kind, ToPhone(phone), Some(sptoken), None)]) &&
      (issued.Ok? && issued.value.Some? && |issued.value.value| < 6 ==> r == Err(IndexOutOfBounds) && o == o0) &&
      (issued.Ok? && issued.value.Some? && |issued.value.value| >= 6 ==>
        r.Ok? && o == o0 + [Message(kind, ToPhone(phone), Some(sptoken), Some(FormatPhoneToken(issued.value.value)))])
    else
      r.Ok? && c == c1 && o == o0 + [Message(kind, ToPhone(phone), Some(sptoken), None)]
  }

  /** notifyAccountExists: a missing account is a null dereference; a verified email gets the reset email
    * with a sign-in token, else a verified phone gets the reset SMS with one; otherwise nothing happens. */
  predicate AccountExistsNotified(c0: Cache, o0: seq<Message>, c: Cache, o: seq<Message>, r: Result<(), BridgeError>,
                                  study: Study, accountId: AccountId, accounts: AccountId -> Option<Account>, sptoken: string,
                                  signInNewToken: string, maxRequests: int, timeout: int)
  {
    match accounts(accountId)
    case None => r == Err(NullPointer) && c == c0 && o == o0
    case Some(a) =>
      if a.email.Some? && a.emailVerified then
        ResetEmailSent(c0, o0, c, o, r, study, a.email.value, true, AccountExistsMessage, sptoken, signInNewToken, accounts, maxRequests, timeout)
      else if a.phone.Some? && a.phoneVerified then
        ResetSmsSent(c0, o0, c, o, r, study, a.phone.value, true, AccountExistsMessage, sptoken, signInNewToken, accounts, maxRequests, timeout)
      else r.Ok? && c == c0 && o == o0
  }


  class AccountWorkflowService {
    var cache: Cache
    var outbox: seq<Message>
    /** The accountDao.changePassword calls made. */
    var passwordChanges: seq<PasswordChange>
    const maxRequests: int
    const throttleTimeoutSeconds: int

    constructor (maxRequests: int, throttleTimeoutSeconds: int)
      ensures cache == map[] && outbox == [] && passwordChanges == []
      ensures this.maxRequests == maxRequests && this.throttleTimeoutSeconds == throttleTimeoutSeconds
    {
      cache, outbox, passwordChanges := map[], [], [];
      this.maxRequests, this.throttleTimeoutSeconds := maxRequests, throttleTimeoutSeconds;
    }

    /** Increments the (type, user) counter, re-applies the window expiry, and compares the new count with the maximum. */
    method IsRequestThrottled(t: ThrottleRequestType, userId: string) returns (throttled: bool)
      modifies this
      ensures cache == AfterIncrement(old(cache), ThrottleKey(t, userId), throttleTimeoutSeconds)
      ensures throttled <==> Count(old(cache), ThrottleKey(t, userId)) + 1 > maxRequests
      ensures outbox == old(outbox) && passwordChanges == old(passwordChanges)
    {
      var key := ThrottleKey(t, userId);
      var numRequests := Count(cache, key) + 1;
      cache := cache[key := CacheEntry(Counter(numRequests), throttleTimeoutSeconds)];
      throttled := numRequests > maxRequests;
    }

    method SaveVerification(sptoken: string, payload: VerificationPayload)
      requires !IsBlank(sptoken)
      modifies this
      ensures cache == SaveCache(old(cache), sptoken, payload)
      ensures outbox == old(outbox) && passwordChanges == old(passwordChanges)
    {
      cache := cache[sptoken := CacheEntry(Verification(payload), VERIFY_OR_RESET_EXPIRE_IN_SECONDS)];
    }

    method RestoreVerification(sptoken: string) returns (r: Result<Option<VerificationData>, BridgeError>)
      modifies this
      ensures r == RestoreOutcome(old(cache), sptoken) && cache == RestoreCache(old(cache), sptoken)
      ensures outbox == old(outbox) && passwordChanges == old(passwordChanges)
    {
      if IsBlank(sptoken) {
        return Err(IllegalArgument);
      }
      if sptoken !in cache {
        return Ok(None);
      }
      var stored := cache[sptoken].value;
      cache := cache - {sptoken};
      var data := DecodeVerification(stored);
      if data.Err? {
        return Err(data.error);
      }
      return Ok(Some(data.value));
    }

    /** A missing token and a token for the other channel are the same error; either way a found token is consumed. */
    method VerifyChannel(channel: ChannelType, sptoken: string, accounts: AccountId -> Option<Account>)
      returns (r: Result<Account, BridgeError>)
      modifies this
      ensures cache == RestoreCache(old(cache), sptoken)
      ensures outbox == old(outbox) && passwordChanges == old(passwordChanges)
      ensures RestoreOutcome(old(cache), sptoken).Err? ==> r == Err(RestoreOutcome(old(cache), sptoken).error)
      ensures RestoreOutcome(old(cache), sptoken) == Ok(None) ==> r == Err(BadRequest(VERIFY_TOKEN_EXPIRED))
      ensures forall d: VerificationData :: RestoreOutcome(old(cache), sptoken) == Ok(Some(d)) ==>
        if d.channel != channel then r == Err(BadRequest(VERIFY_TOKEN_EXPIRED))
        else if accounts(ForId(d.studyId, d.userId)).None? then r == Err(EntityNotFound("Account"))
        else r == Ok(accounts(ForId(d.studyId, d.userId)).value)
    {
      var data := RestoreVerification(sptoken);
      if data.Err? {
        return Err(data.error);
      }
      if data.value.None? {
        return Err(BadRequest(VERIFY_TOKEN_EXPIRED));
      }
      var d := data.value.value;
      if d.channel != channel {
        return Err(BadRequest(VERIFY_TOKEN_EXPIRED));
      }
      var account := accounts(ForId(d.studyId, d.userId));
      if account.None? {
        return Err(EntityNotFound("Account"));
      }
      return Ok(account.value);
    }

    /** Nothing is stored or sent without an email address or while the user is throttled. */
    method SendEmailVerificationToken(study: Study, userId: string, recipientEmail: Option<string>, sptoken: string)
      requires !IsBlank(userId) && !IsBlank(sptoken) && !IsBlank(study.identifier)
      modifies this
      ensures passwordChanges == old(passwordChanges)
      ensures recipientEmail.None? ==> cache == old(cache) && outbox == old(outbox)
      ensures recipientEmail.Some? ==>
        var c1 := AfterIncrement(old(cache), ThrottleKey(VERIFY_EMAIL, userId), throttleTimeoutSeconds);
        if Count(c1, ThrottleKey(VERIFY_EMAIL, userId)) > maxRequests then cache == c1 && outbox == old(outbox)
        else cache == SaveCache(c1, sptoken, VerificationPayload(study.identifier, userId, Some(EMAIL))) &&
             outbox == old(outbox) + [Message(VerifyEmailMessage, ToEmail(recipientEmail.value), Some(sptoken), None)]
    {
      if recipientEmail.None? {
        return;
      }
      var throttled := IsRequestThrottled(VERIFY_EMAIL, userId);
      if throttled {
        return;
      }
      SaveVerification(sptoken, VerificationPayload(study.identifier, userId, Some(EMAIL)));
      outbox := outbox + [Message(VerifyEmailMessage, ToEmail(recipientEmail.value), Some(sptoken), None)];
    }

    /** As for email; the SMS shows the code in its dashed form. */
    method SendPhoneVerificationToken(study: Study, userId: string, phone: Option<Phone>, sptoken: string)
      requires !IsBlank(userId) && !IsBlank(sptoken) && |sptoken| >= 6 && !IsBlank(study.identifier)
      modifies this
      ensures passwordChanges == old(passwordChanges)
      ensures phone.None? ==> cache == old(cache) && outbox == old(outbox)
      ensures phone.Some? ==>
        var c1 := AfterIncrement(old(cache), ThrottleKey(VERIFY_PHONE, userId), throttleTimeoutSeconds);
        if Count(c1, ThrottleKey(VERIFY_PHONE, userId)) > maxRequests then cache == c1 && outbox == old(outbox)
        else cache == SaveCache(c1, sptoken, VerificationPayload(study.identifier, userId, Some(PHONE))) &&
             outbox == old(outbox) + [Message(VerifyPhoneMessage, ToPhone(phone.value), Some(FormatPhoneToken(sptoken)), None)]
    {
      if phone.None? {
        return;
      }
      var throttled := IsRequestThrottled(VERIFY_PHONE, userId);
      if throttled {
        return;
      }
      SaveVerification(sptoken, VerificationPayload(study.identifier, userId, Some(PHONE)));
      outbox := outbox + [Message(VerifyPhoneMessage, ToPhone(phone.value), Some(FormatPhoneToken(sptoken)), None)];
    }

    /** A new token over the requested channel for an existing account; an unknown account is ignored. */
    method ResendVerificationToken(channel: ChannelType, accountId: AccountId, study: Study,
                                   accounts: AccountId -> Option<Account>, sptoken: string)
      returns (r: Result<(), BridgeError>)
      requires !IsBlank(sptoken) && |sptoken| >= 6 && !IsBlank(study.identifier)
      modifies this
      ensures passwordChanges == old(passwordChanges)
      ensures accounts(accountId).None? ==> r.Ok? && cache == old(cache) && outbox == old(outbox)
      ensures accounts(accountId).Some? && IsBlank(accounts(accountId).value.id) ==>
        r == Err(IllegalArgument) && cache == old(cache) && outbox == old(outbox)
      ensures (r.Ok? && accounts(accountId).Some? && channel == EMAIL && accounts(accountId).value.email.Some? &&
        Count(old(cache), ThrottleKey(VERIFY_EMAIL, accounts(accountId).value.id)) + 1 <= maxRequests) ==>
        |outbox| == |old(outbox)| + 1 && outbox[|outbox| - 1].kind == VerifyEmailMessage
      ensures (r.Ok? && accounts(accountId).Some? && channel == PHONE && accounts(accountId).value.phone.Some? &&
        Count(old(cache), ThrottleKey(VERIFY_PHONE, accounts(accountId).value.id)) + 1 <= maxRequests) ==>
        |outbox| == |old(outbox)| + 1 && outbox[|outbox| - 1].kind == VerifyPhoneMessage
    {
      var account := accounts(accountId);
      if account.None? {
        return Ok(());
      }
      if IsBlank(account.value.id) {
        return Err(IllegalArgument);
      }
      if channel == EMAIL {
        SendEmailVerificationToken(study, account.value.id, account.value.email, sptoken);
      } else {
        SendPhoneVerificationToken(study, account.value.id, account.value.phone, sptoken);
      }
      return Ok(());
    }

    method IssueSignInToken(channel: ChannelType, signIn: SignIn, shouldThrottle: bool, newToken: string,
                            accounts: AccountId -> Option<Account>)
      returns (r: Result<Option<string>, BridgeError>)
      requires HasChannelIdentifier(channel, signIn)
      modifies this
      ensures (r, cache) == SignInIssue(old(cache), channel, signIn, shouldThrottle, newToken, accounts, maxRequests, throttleTimeoutSeconds)
      ensures outbox == old(outbox) && passwordChanges == old(passwordChanges)
    {
      var account := accounts(AccountIdOf(signIn));
      if account.None? {
        return Ok(None);
      }
      var throttleType := if channel == EMAIL then EMAIL_SIGNIN else PHONE_SIGNIN;
      if shouldThrottle {
        var throttled := IsRequestThrottled(throttleType, account.value.id);
        if throttled {
          return Ok(None);
        }
      }
      var key := SignInCacheKey(channel, signIn);
      var stored := ReadText(cache, key);
      if stored.Err? {
        return Err(stored.error);
      }
      var token := stored.value;
      if token.None? {
        cache := cache[key := CacheEntry(Text(newToken), SIGNIN_EXPIRE_IN_SECONDS)];
        token := Some(newToken);
      }
      return Ok(token);
    }

    /** requestChannelSignIn: email sign-in must be enabled for the study; the caller sends the returned token. */
    method RequestChannelSignIn(channel: ChannelType, signIn: SignIn, study: Study, shouldThrottle: bool, newToken: string,
                                accounts: AccountId -> Option<Account>)
      returns (r: Result<Option<string>, BridgeError>)
      requires HasChannelIdentifier(channel, signIn) && study.identifier == signIn.studyId
      modifies this
      ensures channel == EMAIL && !study.emailSignInEnabled ==>
        r == Err(Unauthorized("Email-based sign in not enabled for study: " + study.name)) && cache == old(cache)
      ensures !(channel == EMAIL && !study.emailSignInEnabled) ==>
        (r, cache) == SignInIssue(old(cache), channel, signIn, shouldThrottle, newToken, accounts, maxRequests, throttleTimeoutSeconds)
      ensures outbox == old(outbox) && passwordChanges == old(passwordChanges)
    {
      if channel == EMAIL && !study.emailSignInEnabled {
        return Err(Unauthorized("Email-based sign in not enabled for study: " + study.name));
      }
      r := IssueSignInToken(channel, signIn, shouldThrottle, newToken, accounts);
    }

    method RequestEmailSignIn(signIn: SignIn, study: Study, newToken: string, accounts: AccountId -> Option<Account>)
      returns (r: Result<(), BridgeError>)
      requires signIn.email.Some? && study.identifier == signIn.studyId
      modifies this
      ensures passwordChanges == old(passwordChanges)
      ensures !study.emailSignInEnabled ==> r.Err? && cache == old(cache) && outbox == old(outbox)
      ensures study.emailSignInEnabled ==>
        var (issued, c) := SignInIssue(old(cache), EMAIL, signIn, true, newToken, accounts, maxRequests, throttleTimeoutSeconds);
        cache == c &&
        (issued.Err? ==> r == Err(issued.error) && outbox == old(outbox)) &&
        (issued == Ok(None) ==> r.Ok? && outbox == old(outbox)) &&
        (issued.Ok? && issued.value.Some? ==> (r.Ok? &&
          outbox == old(outbox) + [Message(EmailSignInMessage, ToEmail(signIn.email.value), None, issued.value)]))
    {
      var token := RequestChannelSignIn(EMAIL, signIn, study, true, newToken, accounts);
      if token.Err? {
        return Err(token.error);
      }
      if token.value.Some? {
        outbox := outbox + [Message(EmailSignInMessage, ToEmail(signIn.email.value), None, token.value)];
      }
      return Ok(());
    }

    /** The SMS shows the token in its dashed form; a token shorter than six characters cannot be cut. */
    method RequestPhoneSignIn(signIn: SignIn, study: Study, newToken: string, accounts: AccountId -> Option<Account>)
      returns (r: Result<(), BridgeError>)
      requires signIn.phone.Some? && study.identifier == signIn.studyId
      modifies this
      ensures passwordChanges == old(passwordChanges)
      ensures var (issued, c) := SignInIssue(old(cache), PHONE, signIn, true, newToken, accounts, maxRequests, throttleTimeoutSeconds);
        cache == c &&
        (issued.Err? ==> r == Err(issued.error) && outbox == old(outbox)) &&
        (issued == Ok(None) ==> r.Ok? && outbox == old(outbox)) &&
        (issued.Ok? && issued.value.Some? && |issued.value.value| < 6 ==> r == Err(IndexOutOfBounds) && outbox == old(outbox)) &&
        (issued.Ok? && issued.value.Some? && |issued.value.value| >= 6 ==> (r.Ok? &&
          outbox == old(outbox) + [Message(PhoneSignInMessage, ToPhone(signIn.phone.value), None, Some(FormatPhoneToken(issued.value.value)))]))
    {
      var token := RequestChannelSignIn(PHONE, signIn, study, true, newToken, accounts);
      if token.Err? {
        return Err(token.error);
      }
      if token.value.Some? {
        if |token.value.value| < 6 {
          return Err(IndexOutOfBounds);
        }
        outbox := outbox + [Message(PhoneSignInMessage, ToPhone(signIn.phone.value), None, Some(FormatPhoneToken(token.value.value)))];
      }
      return Ok(());
    }

    method ChannelSignIn(channel: ChannelType, signIn: SignIn) returns (r: Result<AccountId, BridgeError>)
      requires HasChannelIdentifier(channel, signIn)
      modifies this
      ensures (r, cache) == ChannelSignInStep(old(cache), channel, signIn)
      ensures outbox == old(outbox) && passwordChanges == old(passwordChanges)
    {
      var key := SignInCacheKey(channel, signIn);
      var stored := ReadText(cache, key);
      if stored.Err? {
        return Err(stored.error);
      }
      if stored.value.None? || signIn.token != stored.value {
        return Err(AuthenticationFailed);
      }
      cache := cache - {key};
      return Ok(AccountIdOf(signIn));
    }

    /** Stores the email under the reset key for two hours and mails the reset token; for the
      * account-exists message a sign-in token is added when the study allows email sign-in. */
    method SendPasswordResetRelatedEmail(study: Study, email: string, includeEmailSignIn: bool, kind: MessageKind,
                                         sptoken: string, signInNewToken: string, accounts: AccountId -> Option<Account>)
      returns (r: Result<(), BridgeError>)
      modifies this
      ensures passwordChanges == old(passwordChanges)
      ensures ResetEmailSent(old(cache), old(outbox), cache, outbox, r, study, email, includeEmailSignIn, kind, sptoken,
                             signInNewToken, accounts, maxRequests, throttleTimeoutSeconds)
    {
      cache := cache[EmailResetKey(sptoken, study.identifier) := CacheEntry(Text(email), VERIFY_OR_RESET_EXPIRE_IN_SECONDS)];
      var signInToken: Option<string> := None;
      if includeEmailSignIn && study.emailSignInEnabled {
        var signIn := SignIn(study.identifier, Some(email), None, None, None, None);
        var issued := IssueSignInToken(EMAIL, signIn, false, signInNewToken, accounts);
        if issued.Err? {
          return Err(issued.error);
        }
        signInToken := issued.value;
      }
      outbox := outbox + [Message(kind, ToEmail(email), Some(sptoken), signInToken)];
      return Ok(());
    }

    /** Stores the phone under the phone reset key and texts the reset token; for the account-exists
      * message a phone sign-in token is always added. */
    method SendPasswordResetRelatedSms(study: Study, phone: Phone, includePhoneSignIn: bool, kind: MessageKind,
                                       sptoken: string, signInNewToken: string, accounts: AccountId -> Option<Account>)
      returns (r: Result<(), BridgeError>)
      modifies this
      ensures passwordChanges == old(passwordChanges)
      ensures ResetSmsSent(old(cache), old(outbox), cache, outbox, r, study, phone, includePhoneSignIn, kind, sptoken,
                           signInNewToken, accounts, maxRequests, throttleTimeoutSeconds)
    {
      cache := cache[PhoneResetKey(sptoken, study.identifier) := CacheEntry(PhoneJson(phone), VERIFY_OR_RESET_EXPIRE_IN_SECONDS)];
      var signInToken: Option<string> := None;
      if includePhoneSignIn {
        var signIn := SignIn(study.identifier, None, Some(phone), None, None, None);
        var issued := IssueSignInToken(PHONE, signIn, false, signInNewToken, accounts);
        if issued.Err? {
          return Err(issued.error);
        }
        if issued.value.Some? {
          if |issued.value.value| < 6 {
            return Err(IndexOutOfBounds);
          }
          signInToken := Some(FormatPhoneToken(issued.value.value));
        }
      }
      outbox := outbox + [Message(kind, ToPhone(phone), Some(sptoken), signInToken)];
      return Ok(());
    }

    /** The account-exists notice goes by verified email, else by verified phone; the account must exist. */
    method NotifyAccountExists(study: Study, accountId: AccountId, accounts: AccountId -> Option<Account>,
                               sptoken: string, signInNewToken: string)
      returns (r: Result<(), BridgeError>)
      modifies this
      ensures AccountExistsNotified(old(cache), old(outbox), cache, outbox, r, study, accountId, accounts, sptoken, signInNewToken,
                                    maxRequests, throttleTimeoutSeconds)
      ensures passwordChanges == old(passwordChanges)
      ensures accounts(accountId).None? ==> r == Err(NullPointer) && cache == old(cache) && outbox == old(outbox)
      ensures r.Err? ==> outbox == old(outbox)
      ensures accounts(accountId).Some? ==>
        var a := accounts(accountId).value;
        (a.email.Some? && a.emailVerified && r.Ok? ==>
          |outbox| == |old(outbox)| + 1 && outbox[|outbox| - 1].kind == AccountExistsMessage &&
          outbox[|outbox| - 1].to == ToEmail(a.email.value) && outbox[|outbox| - 1].sptoken == Some(sptoken)) &&
        (!(a.email.Some? && a.emailVerified) && a.phone.Some? && a.phoneVerified && r.Ok? ==>
          |outbox| == |old(outbox)| + 1 && outbox[|outbox| - 1].kind == AccountExistsMessage &&
          outbox[|outbox| - 1].to == ToPhone(a.phone.value) && outbox[|outbox| - 1].sptoken == Some(sptoken)) &&
        (!(a.email.Some? && a.emailVerified) && !(a.phone.Some? && a.phoneVerified) ==>
          r.Ok? && cache == old(cache) && outbox == old(outbox))
    {
      var account := accounts(accountId);
      if account.None? {
        return Err(NullPointer);
      }
      var a := account.value;
      if a.email.Some? && a.emailVerified {
        r := SendPasswordResetRelatedEmail(study, a.email.value, true, AccountExistsMessage, sptoken, signInNewToken, accounts);
      } else if a.phone.Some? && a.phoneVerified {
        r := SendPasswordResetRelatedSms(study, a.phone.value, true, AccountExistsMessage, sptoken, signInNewToken, accounts);
      } else {
        r := Ok(());
      }
    }

    /** Silently does nothing for an unknown account, so that accounts cannot be enumerated. */
    method RequestResetPassword(study: Study, accountId: AccountId, accounts: AccountId -> Option<Account>, sptoken: string)
      returns (r: Result<(), BridgeError>)
      requires study.identifier == accountId.studyId
      modifies this
      ensures passwordChanges == old(passwordChanges) && r.Ok?
      ensures accounts(accountId).None? ==> cache == old(cache) && outbox == old(outbox)
      ensures accounts(accountId).Some? ==>
        var a := accounts(accountId).value;
        (a.email.Some? && a.emailVerified ==>
          cache == old(cache)[EmailResetKey(sptoken, study.identifier) := CacheEntry(Text(a.email.value), VERIFY_OR_RESET_EXPIRE_IN_SECONDS)] &&
          outbox == old(outbox) + [Message(ResetPasswordMessage, ToEmail(a.email.value), Some(sptoken), None)]) &&
        (!(a.email.Some? && a.emailVerified) && a.phone.Some? && a.phoneVerified ==>
          cache == old(cache)[PhoneResetKey(sptoken, study.identifier) := CacheEntry(PhoneJson(a.phone.value), VERIFY_OR_RESET_EXPIRE_IN_SECONDS)] &&
          outbox == old(outbox) + [Message(ResetPasswordMessage, ToPhone(a.phone.value), Some(sptoken), None)]) &&
        (!(a.email.Some? && a.emailVerified) && !(a.phone.Some? && a.phoneVerified) ==>
          cache == old(cache) && outbox == old(outbox))
    {
      var account := accounts(accountId);
      r := Ok(());
      if account.None? {
        return;
      }
      var a := account.value;
      if a.email.Some? && a.emailVerified {
        r := SendPasswordResetRelatedEmail(study, a.email.value, false, ResetPasswordMessage, sptoken, "", accounts);
      } else if a.phone.Some? && a.phoneVerified {
        r := SendPasswordResetRelatedSms(study, a.phone.value, false, ResetPasswordMessage, sptoken, "", accounts);
      }
    }

    method ResetPassword(sptoken: string, studyId: string, password: string, accounts: AccountId -> Option<Account>)
      returns (r: Result<Account, BridgeError>)
      modifies this
      ensures (r, cache) == ResetStep(old(cache), sptoken, studyId, accounts)
      ensures outbox == old(outbox)
      ensures r.Ok? ==> passwordChanges == old(passwordChanges) + [PasswordChange(r.value, password)]
      ensures r.Err? ==> passwordChanges == old(passwordChanges)
    {
      var emailKey, phoneKey := EmailResetKey(sptoken, studyId), PhoneResetKey(sptoken, studyId);
      var email := ReadText(cache, emailKey);
      if email.Err? {
        return Err(email.error);
      }
      if email.value.None? && phoneKey !in cache {
        return Err(BadRequest(PASSWORD_RESET_TOKEN_EXPIRED));
      }
      var phoneValue := if phoneKey in cache then Some(cache[phoneKey].value) else None;
      cache := cache - {emailKey, phoneKey};
      var accountId: AccountId;
      if email.value.Some? {
        accountId := ForEmail(studyId, email.value.value);
      } else if phoneValue.value.PhoneJson? {
        accountId := ForPhone(studyId, phoneValue.value.phone);
      } else {
        return Err(Deserialization);
      }
      var account := accounts(accountId);
      if account.None? {
        return Err(EntityNotFound("Account"));
      }
      passwordChanges := passwordChanges + [PasswordChange(account.value, password)];
      return Ok(account.value);
    }
  }
}

/**
 * AuthenticationService: assembling a user session from an account, caching
 * it, and the sign-in, reauthentication, channel sign-in, sign-out and
 * sign-up flows around it.
 */
module Authentication {
  import opened Wrappers
  import opened Text
  import opened Domain
  import opened Criteria
  import opened AccountWorkflow
  import opened Intents

  datatype ConsentStatus = ConsentStatus(subpopGuid: string, required: bool, consented: bool)

  datatype UserSession = UserSession(
    participant: StudyParticipant,
    sessionToken: string,
    internalSessionToken: string,
    authenticated: bool,
    environment: string,
    studyId: string,
    reauthToken: string,
    consentStatuses: seq<ConsentStatus>)

  /** The services the session is assembled from, which this model does not contain. */
  datatype Collaborators = Collaborators(
    /** participantService.getParticipant(study, account, false), which carries the account's id */
    participantOf: Account -> StudyParticipant,
    /** consentService.getConsentStatuses */
    consentStatusesOf: CriteriaContext -> seq<ConsentStatus>,
    /** UserSession.doesConsent over the session's statuses */
    doesConsent: seq<ConsentStatus> -> bool,
    /** Roles.ADMINISTRATIVE_ROLES */
    administrativeRoles: set<string>,
    environment: string)

  datatype SignInOutcome =
    | SignedIn(session: UserSession)
    | ConsentRequired(session: UserSession)
    | Failed(error: BridgeError)

  /** The participant's languages, or the request's when the participant has none and the request has some. */
  function SessionLanguages(stored: seq<string>, requested: seq<string>): (r: seq<string>)
    ensures stored != [] ==> r == stored
    ensures stored == [] ==> r == requested
  {
    if stored == [] && requested != [] then requested else stored
  }

  /** The context consent statuses are computed from: the request's, with the session participant's
    * identity, languages and data groups. */
  function ConsentContext(context: CriteriaContext, p: StudyParticipant): CriteriaContext {
    context.(healthCode := Some(p.healthCode), userId := Some(p.id), languages := p.languages, userDataGroups := p.dataGroups)
  }

  /** A session that neither consents nor belongs to an administrator raises ConsentRequired. */
  predicate NeedsConsent(session: UserSession, collab: Collaborators) {
    !collab.doesConsent(session.consentStatuses) && session.participant.roles * collab.administrativeRoles == {}
  }

  function Outcome(session: UserSession, collab: Collaborators): (r: SignInOutcome)
    ensures r.ConsentRequired? <==> NeedsConsent(session, collab)
    ensures !r.Failed? && r.session == session
  {
    if NeedsConsent(session, collab) then ConsentRequired(session) else SignedIn(session)
  }

  /** The cache after setUserSession: the holder of the session's token, if any, is dropped, and the
    * session is stored under its user. */
  function CacheSession(sessions: map<string, UserSession>, tokenIndex: map<string, string>, session: UserSession)
    : map<string, UserSession>
  {
    var t := session.sessionToken;
    (sessions - (if t in tokenIndex then {tokenIndex[t]} else {}))[session.participant.id := session]
  }

  /** The cache after removeSession: the session's user and the holder of its token are dropped. */
  function UncacheSession(sessions: map<string, UserSession>, tokenIndex: map<string, string>, session: UserSession)
    : map<string, UserSession>
  {
    var t := session.sessionToken;
    sessions - {session.participant.id} - (if t in tokenIndex then {tokenIndex[t]} else {})
  }

  /** The persisted languages after getSessionFromAccount: the request's languages are saved under the
    * health code only when the participant has none. */
  function LanguagesAfter(stored: map<string, seq<string>>, account: Account, context: CriteriaContext, collab: Collaborators)
    : map<string, seq<string>>
  {
    if collab.participantOf(account).languages == [] && context.languages != [] then stored[account.healthCode := context.languages]
    else stored
  }

  /** The session getSessionFromAccount assembles, given the sessions cached at the time. */
  function SessionFromAccount(study: Study, context: CriteriaContext, account: Account, collab: Collaborators,
                              cached: map<string, UserSession>, newToken: string, newInternalToken: string): (session: UserSession)
    ensures session.participant == collab.participantOf(account).(languages := SessionLanguages(collab.participantOf(account).languages, context.languages))
    ensures account.id in cached ==>
      session.sessionToken == cached[account.id].sessionToken && session.internalSessionToken == cached[account.id].internalSessionToken
    ensures account.id !in cached ==> session.sessionToken == newToken && session.internalSessionToken == newInternalToken
    ensures session.authenticated && session.reauthToken == account.reauthToken
    ensures session.studyId == study.identifier && session.environment == collab.environment
    ensures session.consentStatuses == collab.consentStatusesOf(ConsentContext(context, session.participant))
  {
    var stored := collab.participantOf(account);
    var participant := stored.(languages := SessionLanguages(stored.languages, context.languages));
    var token := if account.id in cached then cached[account.id].sessionToken else newToken;
    var internalToken := if account.id in cached then cached[account.id].internalSessionToken else newInternalToken;
    UserSession(participant, token, internalToken, true, collab.environment, study.identifier, account.reauthToken,
                collab.consentStatusesOf(ConsentContext(context, participant)))
  }

  /** Dropping the user's own session before caching a new one for the user changes nothing in the result. */
  lemma CacheAfterDrop(s0: map<string, UserSession>, t0: map<string, string>, t1: map<string, string>, session: UserSession)
    requires var t := session.sessionToken; t in t1 <==> t in t0 && t0[t] != session.participant.id
    requires session.sessionToken in t1 ==> t1[session.sessionToken] == t0[session.sessionToken]
    ensures CacheSession(s0 - {session.participant.id}, t1, session) == CacheSession(s0, t0, session)
  {
    var id, t := session.participant.id, session.sessionToken;
    if t in t0 && t0[t] != id {
      assert s0 - {id} - {t0[t]} == s0 - {t0[t]} - {id};
    }
  }

  lemma RemoveThenUpdate<K, V>(m: map<K, V>, k: K, v: V)
    ensures (m - {k})[k := v] == m[k := v]
  {
  }

  class AuthenticationService {
    /** Cached sessions by user id, and the session-token index into them. */
    var sessions: map<string, UserSession>
    var tokenIndex: map<string, string>
    /** The languages persisted per health code. */
    var storedLanguages: map<string, seq<string>>
    /** The accountDao.signOut and accountDao.verifyChannel calls made. */
    var signedOut: seq<AccountId>
    var channelVerifications: seq<(ChannelType, string)>
    const workflow: AccountWorkflowService
    const intents: IntentService

    /** Each cached session is indexed by its own token, and each token leads to the session that holds it. */
    ghost predicate Valid()
      reads this
    {
      (forall u :: u in sessions ==>
        sessions[u].participant.id == u && sessions[u].sessionToken in tokenIndex && tokenIndex[sessions[u].sessionToken] == u) &&
      (forall t :: t in tokenIndex ==> tokenIndex[t] in sessions && sessions[tokenIndex[t]].sessionToken == t)
    }

    constructor (workflow: AccountWorkflowService, intents: IntentService)
      ensures Valid()
      ensures sessions == map[] && tokenIndex == map[] && storedLanguages == map[] && signedOut == [] && channelVerifications == []
      ensures this.workflow == workflow && this.intents == intents
    {
      sessions, tokenIndex, storedLanguages, signedOut, channelVerifications := map[], map[], map[], [], [];
      this.workflow, this.intents := workflow, intents;
    }

    /** getSession(token): nothing for a null token, else the session cached under it. */
    function GetSession(token: Option<string>): (r: Option<UserSession>)
      reads this
      requires Valid()
      ensures token.None? ==> r.None?
      ensures r.Some? <==> token.Some? && token.value in tokenIndex
      ensures token.Some? && token.value in tokenIndex ==> r == Some(sessions[tokenIndex[token.value]])
      ensures r.Some? ==> r.value.sessionToken == token.value && r.value.participant.id in sessions
    {
      if token.None? || token.value !in tokenIndex then None else Some(sessions[tokenIndex[token.value]])
    }

    /** cacheProvider.setUserSession: the user's earlier session, if any, is replaced, and so is
      * the session of any other user that held the same token. */
    method SetUserSession(session: UserSession)
      requires Valid()
      modifies this
      ensures Valid()
      ensures sessions == CacheSession(old(sessions), old(tokenIndex), session)
      ensures session.sessionToken in tokenIndex && tokenIndex[session.sessionToken] == session.participant.id
      ensures GetSession(Some(session.sessionToken)) == Some(session)
      ensures storedLanguages == old(storedLanguages) && signedOut == old(signedOut) && channelVerifications == old(channelVerifications)
    {
      var u, t := session.participant.id, session.sessionToken;
      ghost var displaced: set<string> := if t in tokenIndex then {tokenIndex[t]} else {};
      ghost var before := sessions;
      if t in tokenIndex {
        var holder := tokenIndex[t];
        assert sessions[holder].sessionToken == t;
        RemoveSessionByUserId(holder);
      }
      assert sessions == before - displaced && t !in tokenIndex;
      RemoveSessionByUserId(u);
      assert t !in tokenIndex && u !in sessions;
      Put(session);
      RemoveThenUpdate(before - displaced, u, session);
    }

    /** Adds a session whose user and token are both absent from the cache. */
    method Put(session: UserSession)
      requires Valid() && session.participant.id !in sessions && session.sessionToken !in tokenIndex
      modifies this
      ensures Valid()
      ensures sessions == old(sessions)[session.participant.id := session]
      ensures tokenIndex == old(tokenIndex)[session.sessionToken := session.participant.id]
      ensures storedLanguages == old(storedLanguages) && signedOut == old(signedOut) && channelVerifications == old(channelVerifications)
    {
      sessions := sessions[session.participant.id := session];
      tokenIndex := tokenIndex[session.sessionToken := session.participant.id];
    }

    /** cacheProvider.removeSessionByUserId. */
    method RemoveSessionByUserId(userId: string)
      requires Valid()
      modifies this
      ensures Valid()
      ensures sessions == old(sessions) - {userId}
      ensures userId in old(sessions) ==> tokenIndex == old(tokenIndex) - {old(sessions)[userId].sessionToken}
      ensures userId !in old(sessions) ==> tokenIndex == old(tokenIndex)
      ensures storedLanguages == old(storedLanguages) && signedOut == old(signedOut) && channelVerifications == old(channelVerifications)
    {
      if userId in sessions {
        tokenIndex := tokenIndex - {sessions[userId].sessionToken};
        sessions := sessions - {userId};
      }
    }

    /** cacheProvider.removeSession: removes the session's token and its user's session. */
    method RemoveSession(session: UserSession)
      requires Valid()
      modifies this
      ensures Valid()
      ensures session.participant.id !in sessions && session.sessionToken !in tokenIndex
      ensures sessions == UncacheSession(old(sessions), old(tokenIndex), session)
      ensures GetSession(Some(session.sessionToken)).None?
      ensures storedLanguages == old(storedLanguages) && signedOut == old(signedOut) && channelVerifications == old(channelVerifications)
    {
      ghost var s0, t0 := sessions, tokenIndex;
      var id, t := session.participant.id, session.sessionToken;
      RemoveSessionByUserId(id);
      assert t in tokenIndex <==> t in t0 && t0[t] != id;
      if t in tokenIndex {
        assert tokenIndex[t] == t0[t];
        sessions := sessions - {tokenIndex[t]};
        tokenIndex := tokenIndex - {t};
      }
    }

    /** getSessionFromAccount: tokens are carried over from the user's cached session, or fresh;
      * languages from the request are adopted and persisted only when the participant has none. */
    method GetSessionFromAccount(study: Study, context: CriteriaContext, account: Account, collab: Collaborators,
                                 newToken: string, newInternalToken: string)
      returns (session: UserSession)
      requires Valid()
      modifies this
      ensures Valid() && sessions == old(sessions) && tokenIndex == old(tokenIndex)
      ensures signedOut == old(signedOut) && channelVerifications == old(channelVerifications)
      ensures storedLanguages == LanguagesAfter(old(storedLanguages), account, context, collab)
      ensures session == SessionFromAccount(study, context, account, collab, old(sessions), newToken, newInternalToken)
    {
      var participant := collab.participantOf(account);
      if participant.languages == [] && context.languages != [] {
        participant := participant.(languages := context.languages);
        storedLanguages := storedLanguages[account.healthCode := context.languages];
      }
      var token, internalToken := newToken, newInternalToken;
      if account.id in sessions {
        token, internalToken := sessions[account.id].sessionToken, sessions[account.id].internalSessionToken;
      }
      var newContext := context.(healthCode := Some(participant.healthCode), userId := Some(participant.id),
                                 languages := participant.languages, userDataGroups := participant.dataGroups);
      session := UserSession(participant, token, internalToken, true, collab.environment, study.identifier,
                             account.reauthToken, collab.consentStatusesOf(newContext));
    }

    /** getSession(study, context): a session built for the context's account, not cached. */
    method GetSessionForContext(study: Study, context: CriteriaContext, account: Option<Account>, collab: Collaborators,
                                newToken: string, newInternalToken: string)
      returns (r: Result<UserSession, BridgeError>)
      requires Valid()
      modifies this
      ensures Valid() && sessions == old(sessions) && tokenIndex == old(tokenIndex)
      ensures signedOut == old(signedOut) && channelVerifications == old(channelVerifications)
      ensures account.None? ==> r == Err(NullPointer) && storedLanguages == old(storedLanguages)
      ensures account.Some? ==> r.Ok? && r.value.authenticated && r.value.reauthToken == account.value.reauthToken
      ensures account.Some? ==>
        r == Ok(SessionFromAccount(study, context, account.value, collab, old(sessions), newToken, newInternalToken)) &&
        storedLanguages == LanguagesAfter(old(storedLanguages), account.value, context, collab)
    {
      if account.None? {
        return Err(NullPointer);
      }
      var session := GetSessionFromAccount(study, context, account.value, collab, newToken, newInternalToken);
      return Ok(session);
    }

    /** signIn: the authenticated account's session is cached before the consent check. */
    method SignIn(study: Study, context: CriteriaContext, authenticated: Result<Account, BridgeError>, collab: Collaborators,
                  newToken: string, newInternalToken: string)
      returns (r: SignInOutcome)
      requires Valid()
      modifies this
      ensures Valid()
      ensures signedOut == old(signedOut) && channelVerifications == old(channelVerifications)
      ensures authenticated.Err? ==>
        r == Failed(authenticated.error) && sessions == old(sessions) && tokenIndex == old(tokenIndex) && storedLanguages == old(storedLanguages)
      ensures authenticated.Ok? ==>
        !r.Failed? &&
        r.session == SessionFromAccount(study, context, authenticated.value, collab, old(sessions), newToken, newInternalToken) &&
        sessions == CacheSession(old(sessions), old(tokenIndex), r.session) &&
        storedLanguages == LanguagesAfter(old(storedLanguages), authenticated.value, context, collab)
      ensures authenticated.Ok? ==>
        (!r.Failed? && r.session.participant.id in sessions && sessions[r.session.participant.id] == r.session &&
         (r.ConsentRequired? <==> NeedsConsent(r.session, collab)) &&
         r.session.authenticated && r.session.reauthToken == authenticated.value.reauthToken &&
         (authenticated.value.id in old(sessions) ==> r.session.sessionToken == old(sessions)[authenticated.value.id].sessionToken))
    {
      if authenticated.Err? {
        return Failed(authenticated.error);
      }
      var session := GetSessionFromAccount(study, context, authenticated.value, collab, newToken, newInternalToken);
      SetUserSession(session);
      return Outcome(session, collab);
    }

    /** reauthenticate: the user's cached session is dropped first, so the new one always has new tokens. */
    method Reauthenticate(study: Study, context: CriteriaContext, reauthenticated: Result<Account, BridgeError>,
                          collab: Collaborators, newToken: string, newInternalToken: string)
      returns (r: SignInOutcome)
      requires Valid()
      requires reauthenticated.Ok? ==> collab.participantOf(reauthenticated.value).id == reauthenticated.value.id
      modifies this
      ensures Valid()
      ensures signedOut == old(signedOut) && channelVerifications == old(channelVerifications)
      ensures reauthenticated.Err? ==>
        r == Failed(reauthenticated.error) && sessions == old(sessions) && tokenIndex == old(tokenIndex) && storedLanguages == old(storedLanguages)
      ensures reauthenticated.Ok? ==>
        !r.Failed? &&
        r.session == SessionFromAccount(study, context, reauthenticated.value, collab, old(sessions) - {reauthenticated.value.id},
                                        newToken, newInternalToken) &&
        sessions == CacheSession(old(sessions), old(tokenIndex), r.session) &&
        storedLanguages == LanguagesAfter(old(storedLanguages), reauthenticated.value, context, collab)
      ensures reauthenticated.Ok? ==>
        (!r.Failed? && r.session.participant.id in sessions &&
         sessions[r.session.participant.id] == r.session &&
         (r.ConsentRequired? <==> NeedsConsent(r.session, collab)) &&
         r.session.sessionToken == newToken && r.session.internalSessionToken == newInternalToken &&
         r.session.reauthToken == reauthenticated.value.reauthToken)
    {
      if reauthenticated.Err? {
        return Failed(reauthenticated.error);
      }
      ghost var s0, t0 := sessions, tokenIndex;
      RemoveSessionByUserId(reauthenticated.value.id);
      var session := GetSessionFromAccount(study, context, reauthenticated.value, collab, newToken, newInternalToken);
      assert newToken in tokenIndex <==> newToken in t0 && t0[newToken] != reauthenticated.value.id;
      CacheAfterDrop(s0, t0, tokenIndex, session);
      SetUserSession(session);
      return Outcome(session, collab);
    }

    /** channelSignIn: the token is checked and consumed, the account must exist and not be disabled,
      * the channel is marked verified, and only then is a session assembled and cached. */
    method ChannelSignIn(channel: ChannelType, context: CriteriaContext, signIn: SignIn, study: Study,
                         accountAfterAuthentication: AccountId -> Option<Account>, collab: Collaborators,
                         newToken: string, newInternalToken: string)
      returns (r: SignInOutcome)
      requires Valid() && HasChannelIdentifier(channel, signIn) && study.identifier == signIn.studyId
      modifies this, workflow
      ensures Valid()
      ensures (workflow.cache, workflow.outbox) == (ChannelSignInStep(old(workflow.cache), channel, signIn).1, old(workflow.outbox))
      ensures var step := ChannelSignInStep(old(workflow.cache), channel, signIn).0;
        (step.Err? ==> r == Failed(step.error) && sessions == old(sessions) && channelVerifications == old(channelVerifications)) &&
        (step.Ok? && accountAfterAuthentication(step.value).None? ==>
          r == Failed(EntityNotFound("Account")) && sessions == old(sessions) && channelVerifications == old(channelVerifications)) &&
        (step.Ok? && accountAfterAuthentication(step.value).Some? && accountAfterAuthentication(step.value).value.status == DISABLED ==>
          r == Failed(AccountDisabled) && sessions == old(sessions) && channelVerifications == old(channelVerifications)) &&
        (step.Ok? && accountAfterAuthentication(step.value).Some? && accountAfterAuthentication(step.value).value.status != DISABLED ==>
          !r.Failed? && r.session.participant.id in sessions && sessions[r.session.participant.id] == r.session &&
          (r.ConsentRequired? <==> NeedsConsent(r.session, collab)) &&
          channelVerifications == old(channelVerifications) + [(channel, accountAfterAuthentication(step.value).value.id)])
      ensures signedOut == old(signedOut)
      ensures var step := ChannelSignInStep(old(workflow.cache), channel, signIn).0;
        if step.Ok? && accountAfterAuthentication(step.value).Some? && accountAfterAuthentication(step.value).value.status != DISABLED then
          var account := accountAfterAuthentication(step.value).value;
          !r.Failed? &&
          r.session == SessionFromAccount(study, context, account, collab, old(sessions), newToken, newInternalToken) &&
          sessions == CacheSession(old(sessions), old(tokenIndex), r.session) &&
          storedLanguages == LanguagesAfter(old(storedLanguages), account, context, collab)
        else
          sessions == old(sessions) && tokenIndex == old(tokenIndex) && storedLanguages == old(storedLanguages)
    {
      var accountId := workflow.ChannelSignIn(channel, signIn);
      if accountId.Err? {
        return Failed(accountId.error);
      }
      var account := accountAfterAuthentication(accountId.value);
      if account.None? {
        return Failed(EntityNotFound("Account"));
      }
      if account.value.status == DISABLED {
        return Failed(AccountDisabled);
      }
      channelVerifications := channelVerifications + [(channel, account.value.id)];
      var session := GetSessionFromAccount(study, context, account.value, collab, newToken, newInternalToken);
      SetUserSession(session);
      return Outcome(session, collab);
    }

    /** signOut: a null session is ignored; otherwise the account is signed out and the session removed. */
    method SignOut(session: Option<UserSession>)
      requires Valid()
      modifies this
      ensures Valid()
      ensures session.None? ==> sessions == old(sessions) && tokenIndex == old(tokenIndex) && signedOut == old(signedOut)
      ensures session.Some? ==>
        (signedOut == old(signedOut) + [ForId(session.value.studyId, session.value.participant.id)] &&
         session.value.participant.id !in sessions && session.value.sessionToken !in tokenIndex &&
         sessions == UncacheSession(old(sessions), old(tokenIndex), session.value))
      ensures storedLanguages == old(storedLanguages) && channelVerifications == old(channelVerifications)
    {
      if session.None? {
        return;
      }
      signedOut := signedOut + [ForId(session.value.studyId, session.value.participant.id)];
      RemoveSession(session.value);
    }

    /** signUp: a new participant's id is returned (after registering cached intents when asked);
      * an existing account is not revealed: its owner is notified and nothing is returned. */
    method SignUp(study: Study, created: Result<string, BridgeError>, checkForConsent: bool, newAccount: Account,
                  subpopGuids: seq<string>, fetchedParticipant: StudyParticipant,
                  accounts: AccountId -> Option<Account>, sptoken: string, signInNewToken: string)
      returns (r: Result<Option<string>, BridgeError>)
      requires Valid()
      modifies this, workflow, intents
      ensures Valid() && sessions == old(sessions) && tokenIndex == old(tokenIndex) && storedLanguages == old(storedLanguages)
      ensures signedOut == old(signedOut) && channelVerifications == old(channelVerifications)
      ensures created.Ok? ==>
        r == Ok(Some(created.value)) && workflow.outbox == old(workflow.outbox) && workflow.cache == old(workflow.cache)
      ensures created.Ok? && !checkForConsent ==> intents.consents == old(intents.consents) && intents.cache == old(intents.cache)
      ensures created.Ok? && checkForConsent && newAccount.phone.None? ==>
        intents.consents == old(intents.consents) && intents.cache == old(intents.cache)
      ensures created.Ok? && checkForConsent && newAccount.phone.Some? ==>
        var phone := newAccount.phone.value;
        intents.cache == old(intents.cache) - KeysOf(subpopGuids, study.identifier, phone) &&
        intents.consents == old(intents.consents) + ConsentsGiven(old(intents.cache), study.identifier, phone, fetchedParticipant.id, subpopGuids)
      ensures created.Err? && created.error.EntityAlreadyExists? ==>
        intents.consents == old(intents.consents) && intents.cache == old(intents.cache) &&
        (r.Err? || r == Ok(None)) &&
        (accounts(ForId(study.identifier, created.error.key)).None? ==> r == Err(NullPointer)) &&
        AccountExistsNotified(old(workflow.cache), old(workflow.outbox), workflow.cache, workflow.outbox,
                              if r.Err? then Err(r.error) else Ok(()), study, ForId(study.identifier, created.error.key),
                              accounts, sptoken, signInNewToken, workflow.maxRequests, workflow.throttleTimeoutSeconds)
      ensures created.Err? && !created.error.EntityAlreadyExists? ==>
        r == Err(created.error) && workflow.outbox == old(workflow.outbox) && workflow.cache == old(workflow.cache) &&
        intents.consents == old(intents.consents) && intents.cache == old(intents.cache)
    {
      if created.Err? {
        if !created.error.EntityAlreadyExists? {
          return Err(created.error);
        }
        var notified := workflow.NotifyAccountExists(study, ForId(study.identifier, created.error.key), accounts,
                                                     sptoken, signInNewToken);
        if notified.Err? {
          return Err(notified.error);
        }
        return Ok(None);
      }
      if checkForConsent {
        var _ := intents.RegisterIntentToParticipate(study, newAccount, subpopGuids, fetchedParticipant);
      }
      return Ok(Some(created.value));
    }
  }
}

# Bridge server core, modelled in Dafny

This project models the core of the Bridge server (Sage Bionetworks' study-participant back end) and proves properties of the model. It covers:

- **Account workflow** (`account_workflow.dfy`). The single-use verification tokens, the password-reset keys `sptoken:<study>` and `sptoken:phone:<study>`, and the passwordless sign-in tokens that an outstanding request reuses. Also the per-(type, user) request throttle and the dashed display of phone tokens. The Redis cache is a class holding a map from key to (value, time to live).
- **Eligibility criteria** (`criteria.dfy`). `matchCriteria` with its inclusive per-OS app-version window, the all-of / none-of data-group constraints and the case-insensitive language check, plus the configuration-time validators.
- **Session assembly** (`authentication.dfy`). Sign-in, re-authentication, channel sign-in, sign-up, sign-out and getSession over a session cache keyed by user id. Session tokens are reused and languages adopted, and ConsentRequired is raised only after the session is cached.
- **Subpopulation table** (`subpopulation_dao.dfy`). Create, update and logical delete, the default subpopulation, and the best match for a user.
- **External-id table** (`external_id_dao.dfy`). The getExternalIds paging loop, add-only-new, conditional assignment, unassignment and deletion.
- **Validators**.
  - The study validator (`study_validator.dfy`).
  - The app-config validator (`app_config_validator.dfy`).
  - The compound-activity-definition validator (`compound_activity_validator.dfy`).
  - These write to a Spring-style `Errors` sink with a nested-path stack (`validation.dfy`). Each validator is a function giving the (field, message) errors and a method proved to record exactly those.
- **Intents to participate** (`intent_service.dfy`). The install-link fallback, the first-write-wins intent cache and registration into consents.
- **Generic upload format handler** (`upload_handler.dfy`). Schema selection from info.json, createdOn parsing, and routing of schema fields to the data or attachment map.
- **Survey element row** (`survey_element.dfy`). The compound key, null-preserving rules, and `equals` versus `hashCode`.

Shared pieces: `wrappers.dfy` (Option, Result), `text.dfy` (blankness by Character.isWhitespace, case folding over ASCII, decimal rendering, joining) and `domain.dfy` (accounts, studies, participants, sessions and the error kinds the server raises).

Where the prose description of the system and the code differ, the model follows the code. The throttle re-applies its window's expiry on every call (AccountWorkflowService.java:680-684), not only when the window opens.

## Model

| member | source | states |
|---|---|---|
| AccountWorkflow.ThrottleKeyInjective | app/org/sagebionetworks/bridge/services/AccountWorkflowService.java:671-673 | the throttle key `channel-throttling:<type>:<userId>` determines both the request type and the user, so every (type, user) pair has its own counter |
| AccountWorkflow.ThrottleTypeNameInjective | app/org/sagebionetworks/bridge/services/AccountWorkflowService.java:673 | no two throttle request types share a lower-case name |
| AccountWorkflow.FormatPhoneToken | app/org/sagebionetworks/bridge/services/AccountWorkflowService.java:253 | the dashed code is seven characters with '-' at index 3, and removing the dash gives back the token's first six characters |
| AccountWorkflow.ReadText | app/org/sagebionetworks/bridge/services/AccountWorkflowService.java:538 | reading a string from the cache: a missing key is null, a stored string comes back unchanged, and any other stored kind is a deserialisation error |
| AccountWorkflow.AfterIncrement | app/org/sagebionetworks/bridge/services/AccountWorkflowService.java:680-684 | one throttle step raises the key's counter by one and sets its expiry to the window; every other key is untouched |
| AccountWorkflow.CountAfterCalls | app/org/sagebionetworks/bridge/services/AccountWorkflowService.java:680-684 | after n throttle calls the counter has risen by exactly n and no other key has changed |
| AccountWorkflow.NthCallThrottled | app/org/sagebionetworks/bridge/services/AccountWorkflowService.java:679-685 | starting from no counter, call n+1 is throttled exactly when n+1 > max, so calls 1..max pass (strict comparison) |
| AccountWorkflow.DecodeVerification | app/org/sagebionetworks/bridge/services/AccountWorkflowService.java:115-129 | a payload decodes exactly when its study and user ids are non-blank; it keeps both ids, and a payload without a channel counts as EMAIL |
| AccountWorkflow.RestoreCache | app/org/sagebionetworks/bridge/services/AccountWorkflowService.java:590-603 | after a restore the token's key is gone and every other key is as before |
| AccountWorkflow.SaveRestoreRoundTrip | app/org/sagebionetworks/bridge/services/AccountWorkflowService.java:579-603 | restoring a just-saved token returns the saved study, user and channel |
| AccountWorkflow.RestoreSingleUse | app/org/sagebionetworks/bridge/services/AccountWorkflowService.java:593-602 | a second restore of the same token returns null |
| AccountWorkflow.ChannelSignInStep | app/org/sagebionetworks/bridge/services/AccountWorkflowService.java:569-576 | sign-in succeeds exactly when the stored token equals the request's; success removes the key and returns the request's account id, and failure leaves the cache unchanged |
| AccountWorkflow.UnknownAccountStoresNothing | app/org/sagebionetworks/bridge/services/AccountWorkflowService.java:517-528 | for an unknown account no token is issued and the cache is unchanged |
| AccountWorkflow.OutstandingTokenReused | app/org/sagebionetworks/bridge/services/AccountWorkflowService.java:537-542 | an outstanding sign-in token is returned again and the cache is unchanged |
| AccountWorkflow.IssuedTokenSignsIn | app/org/sagebionetworks/bridge/services/AccountWorkflowService.java:537-576 | a token issued by requestChannelSignIn signs in the same request and yields its account id |
| AccountWorkflow.SignInTokenSingleUse | app/org/sagebionetworks/bridge/services/AccountWorkflowService.java:569-576 | after a successful sign-in, signing in again with the same token fails with AuthenticationFailed |
| AccountWorkflow.ResetStep | app/org/sagebionetworks/bridge/services/AccountWorkflowService.java:418-447 | with neither reset key present the result is the expired-token BadRequest and the cache is unchanged; an unreadable email entry fails with the cache unchanged; once either key is present both are removed, whether or not the lookup that follows succeeds |
| AccountWorkflow.ResetPrefersEmail | app/org/sagebionetworks/bridge/services/AccountWorkflowService.java:435-445 | when the email entry is present, the account is looked up by that email whatever the phone entry holds |
| AccountWorkflow.ResetByPhone | app/org/sagebionetworks/bridge/services/AccountWorkflowService.java:427-446 | with no email entry and a phone entry, the account is looked up by that phone; both keys are removed, and a missing account is EntityNotFound |
| AccountWorkflow.ResetTokenSingleUse | app/org/sagebionetworks/bridge/services/AccountWorkflowService.java:427-431 | once a reset has succeeded, a second reset with the same token is the expired-token BadRequest |
| AccountWorkflow.AccountWorkflowService.constructor | app/org/sagebionetworks/bridge/services/AccountWorkflowService.java:141-143 | the service starts with an empty cache and outbox and the configured throttle maximum and window |
| AccountWorkflow.AccountWorkflowService.IsRequestThrottled | app/org/sagebionetworks/bridge/services/AccountWorkflowService.java:671-686 | the cache becomes one throttle step on the key, and the call is throttled exactly when the incremented count exceeds the maximum |
| AccountWorkflow.AccountWorkflowService.SaveVerification | app/org/sagebionetworks/bridge/services/AccountWorkflowService.java:579-588 | a non-blank token is stored with its payload for two hours, and nothing else changes |
| AccountWorkflow.AccountWorkflowService.RestoreVerification | app/org/sagebionetworks/bridge/services/AccountWorkflowService.java:590-603 | a blank token is IllegalArgument, a missing one null, a found one removed and then decoded |
| AccountWorkflow.AccountWorkflowService.VerifyChannel | app/org/sagebionetworks/bridge/services/AccountWorkflowService.java:289-306 | a missing token and a channel mismatch both give BadRequest(VERIFY_TOKEN_EXPIRED), and the token is consumed either way; an unknown account is EntityNotFound; otherwise the account is returned |
| AccountWorkflow.AccountWorkflowService.SendEmailVerificationToken | app/org/sagebionetworks/bridge/services/AccountWorkflowService.java:204-236 | with no email nothing changes; while throttled only the counter moves; otherwise the token is saved for EMAIL and one verify-email message is sent |
| AccountWorkflow.AccountWorkflowService.SendPhoneVerificationToken | app/org/sagebionetworks/bridge/services/AccountWorkflowService.java:238-262 | as for email, for PHONE, with the SMS carrying the dashed code |
| AccountWorkflow.AccountWorkflowService.ResendVerificationToken | app/org/sagebionetworks/bridge/services/AccountWorkflowService.java:268-282 | an unknown account changes nothing; otherwise, unless throttled, one verification message goes out over the requested channel |
| AccountWorkflow.AccountWorkflowService.IssueSignInToken | app/org/sagebionetworks/bridge/services/AccountWorkflowService.java:517-542 | result and cache are exactly the sign-in issue step: an unknown account or a throttled request gets nothing; otherwise the outstanding token, or a new one stored for 3600 s |
| AccountWorkflow.AccountWorkflowService.RequestChannelSignIn | app/org/sagebionetworks/bridge/services/AccountWorkflowService.java:501-546 | email sign-in with the study flag off is Unauthorized and changes nothing; otherwise the issue step |
| AccountWorkflow.AccountWorkflowService.RequestEmailSignIn | app/org/sagebionetworks/bridge/services/AccountWorkflowService.java:475-499 | throttled issue step on the email key; exactly one sign-in email, carrying the issued token, when a token is issued |
| AccountWorkflow.AccountWorkflowService.RequestPhoneSignIn | app/org/sagebionetworks/bridge/services/AccountWorkflowService.java:452-467 | throttled issue step on the phone key; one SMS with the dashed token when a token is issued; a token shorter than six characters is an index error |
| AccountWorkflow.AccountWorkflowService.ChannelSignIn | app/org/sagebionetworks/bridge/services/AccountWorkflowService.java:556-577 | result and cache are exactly the channel sign-in step |
| AccountWorkflow.AccountWorkflowService.SendPasswordResetRelatedEmail | app/org/sagebionetworks/bridge/services/AccountWorkflowService.java:345-383 | the email is stored under `sptoken:study` for two hours and one message with the token is sent; a sign-in token is added only when requested and the study enables email sign-in |
| AccountWorkflow.AccountWorkflowService.SendPasswordResetRelatedSms | app/org/sagebionetworks/bridge/services/AccountWorkflowService.java:385-411 | the phone is stored under `sptoken:phone:study` and one SMS is sent; a dashed sign-in token is added when requested |
| AccountWorkflow.AccountWorkflowService.NotifyAccountExists | app/org/sagebionetworks/bridge/services/AccountWorkflowService.java:313-323 | a missing account is a null dereference; a verified email gets the reset email with the reset key cached and a sign-in token issued when email sign-in is on; else a verified phone gets the reset SMS with the phone reset key cached and a phone sign-in token issued; otherwise nothing changes |
| AccountWorkflow.AccountWorkflowService.RequestResetPassword | app/org/sagebionetworks/bridge/services/AccountWorkflowService.java:331-343 | an unknown account silently changes nothing; otherwise a reset token goes by verified email, else by verified phone |
| AccountWorkflow.AccountWorkflowService.ResetPassword | app/org/sagebionetworks/bridge/services/AccountWorkflowService.java:418-447 | result and cache are exactly the reset step, and the password is changed once exactly when it succeeds |
| Authentication.SessionLanguages | app/org/sagebionetworks/bridge/services/AuthenticationService.java:304-308 | the session keeps the participant's stored languages when there are any, and otherwise takes the request's |
| Authentication.Outcome | app/org/sagebionetworks/bridge/services/AuthenticationService.java:166-169 | ConsentRequired is raised exactly when the session does not consent and the user holds no administrative role; either way the outcome carries the session |
| Authentication.AuthenticationService.constructor | app/org/sagebionetworks/bridge/services/AuthenticationService.java:299-338 | the service starts with an empty, consistent session cache |
| Authentication.AuthenticationService.GetSession | app/org/sagebionetworks/bridge/services/AuthenticationService.java:127-132 | a null token gives null; a token that is cached gives the session holding it, and an unknown token gives null |
| Authentication.AuthenticationService.SetUserSession | app/org/sagebionetworks/bridge/services/AuthenticationService.java:164 | caching a session replaces the user's earlier session and any session holding the same token, keeps the token index consistent, and makes the session retrievable by its token |
| Authentication.AuthenticationService.RemoveSessionByUserId | app/org/sagebionetworks/bridge/services/AuthenticationService.java:183 | the user's session and its token are removed, and nothing else changes |
| Authentication.AuthenticationService.RemoveSession | app/org/sagebionetworks/bridge/services/AuthenticationService.java:197 | exactly the session's user and the holder of its token are dropped from the cache; the token no longer finds a session |
| Authentication.AuthenticationService.GetSessionFromAccount | app/org/sagebionetworks/bridge/services/AuthenticationService.java:299-338 | the session is the one SessionFromAccount describes for the sessions cached at the call; request languages are persisted only when the participant has none and the request has some; the cache is unchanged |
| Authentication.SessionFromAccount | app/org/sagebionetworks/bridge/services/AuthenticationService.java:299-338 | tokens are copied from the user's cached session or else fresh; the participant adopts the request's languages only when it has none; the session is authenticated, carries the account's reauth token, and its consent statuses come from a context with the participant's identity, languages and data groups |
| Authentication.AuthenticationService.GetSessionForContext | app/org/sagebionetworks/bridge/services/AuthenticationService.java:145-151 | a missing account is a null dereference; otherwise the session getSessionFromAccount assembles, with its language persistence, and nothing is cached |
| Authentication.AuthenticationService.SignIn | app/org/sagebionetworks/bridge/services/AuthenticationService.java:153-170 | a failed authentication changes nothing; otherwise the assembled session is cached (replacing the user's and the token holder's), languages are persisted as getSessionFromAccount does, and ConsentRequired is raised exactly when consent is needed |
| Authentication.AuthenticationService.Reauthenticate | app/org/sagebionetworks/bridge/services/AuthenticationService.java:172-191 | the cached session is dropped first, so the new session always has fresh tokens; it is cached as signIn caches, languages are persisted, and consent is checked as in signIn |
| Authentication.AuthenticationService.ChannelSignIn | app/org/sagebionetworks/bridge/services/AuthenticationService.java:272-297 | the token step runs first; a missing account is EntityNotFound and a disabled one AccountDisabled, both with no session change; otherwise the channel is marked verified, the assembled session cached as signIn caches, languages persisted and consent checked |
| Authentication.AuthenticationService.SignOut | app/org/sagebionetworks/bridge/services/AuthenticationService.java:193-199 | a null session is a no-op; otherwise the account is signed out and exactly the session's user and its token holder are dropped from the cache |
| Authentication.AuthenticationService.SignUp | app/org/sagebionetworks/bridge/services/AuthenticationService.java:201-226 | a created participant's id is returned; when asked, the cached intents for the account's phone become consents and their keys are removed; an existing account is not revealed: its owner gets the account-exists notice with its cache writes and nothing is returned; other errors propagate and change nothing |
| Criteria.LanguageDoesNotMatch | app/org/sagebionetworks/bridge/models/CriteriaUtils.java:95-107 | true exactly when a target language is set and no preferred language equals it ignoring case; a null target never excludes |
| Criteria.MatchCriteria | app/org/sagebionetworks/bridge/models/CriteriaUtils.java:29-60 | true exactly when the inclusive version window passes (checked only when both app version and OS are known), every allOf group is held, no noneOf group is held, and the language check passes |
| Criteria.RequiredAndProhibitedNeverMatches | app/org/sagebionetworks/bridge/models/CriteriaUtils.java:47-55 | criteria that both require and prohibit a group match no context |
| Criteria.InvertedWindowNeverMatches | app/org/sagebionetworks/bridge/models/CriteriaUtils.java:39-46 | a window whose maximum is below its minimum excludes every request that reports that OS and a version |
| Criteria.NotInEnumerationAll | app/org/sagebionetworks/bridge/models/CriteriaUtils.java:152-160 | one "not in enumeration" message per missing group, in order, naming the declared groups or "<no data groups declared>" |
| Criteria.DataGroupMessages | app/org/sagebionetworks/bridge/models/CriteriaUtils.java:138-150 | a null collection yields exactly ["cannot be null"]; otherwise the list is empty exactly when every group is in the vocabulary, with at most one message per group |
| Criteria.ValidateDataGroups | app/org/sagebionetworks/bridge/models/CriteriaUtils.java:138-150 | the loop builds exactly the specified message list |
| Criteria.RequiredAndProhibitedMessage | app/org/sagebionetworks/bridge/models/CriteriaUtils.java:121-129 | null exactly when either collection is null or they are disjoint; otherwise a message starting "includes these excluded data groups: " |
| Criteria.VersionErrors | app/org/sagebionetworks/bridge/models/CriteriaUtils.java:68-80 | no error for an OS exactly when its min and max are non-negative and min <= max |
| Criteria.AllVersionErrors | app/org/sagebionetworks/bridge/models/CriteriaUtils.java:67-81 | no version error exactly when every listed OS is well formed |
| Criteria.VersionsWellFormedIff | app/org/sagebionetworks/bridge/models/CriteriaUtils.java:67-81 | over the full OS list, the per-OS checks are the checks over both version maps |
| Criteria.CriteriaErrorsEmptyIff | app/org/sagebionetworks/bridge/models/CriteriaUtils.java:66-85 | validate records nothing exactly when every window is sound and non-negative, every group is declared, and no group is both required and prohibited |
| Criteria.Validate | app/org/sagebionetworks/bridge/models/CriteriaUtils.java:66-85 | the sink gains exactly the specified criteria errors, in source order, and the nested path is restored |
| Criteria.RejectDataGroups | app/org/sagebionetworks/bridge/models/CriteriaUtils.java:131-136 | each data-group message is rejected under the property name, in order |
| Criteria.RejectMessage | app/org/sagebionetworks/bridge/models/CriteriaUtils.java:133-135 | one pass rejects message i under the property name, taking the recorded errors from the rejections of the first i messages to those of the first i+1 |
| Criteria.RejectAllVersionErrors | app/org/sagebionetworks/bridge/models/CriteriaUtils.java:67-81 | the loop over OS names records exactly the version errors of each OS in turn |
| Criteria.RejectVersionPass | app/org/sagebionetworks/bridge/models/CriteriaUtils.java:66-80 | one pass records the version errors of OS name i after those of the earlier names |
| Criteria.RejectVersionErrors | app/org/sagebionetworks/bridge/models/CriteriaUtils.java:72-80 | the three per-OS checks record exactly that OS's version errors, each under its subpath |
| SubpopulationDao.DefaultSubpopulation | app/org/sagebionetworks/bridge/dynamodb/DynamoSubpopulationDao.java:92-100 | the default group has guid = study id, is required and not deleted, has minAppVersion 0 and the name "Default Consent Group" |
| SubpopulationDao.Lookup | app/org/sagebionetworks/bridge/dynamodb/DynamoSubpopulationDao.java:104-113 | the table's load finds a record under the key, or reports that no record has it |
| SubpopulationDao.Saved | app/org/sagebionetworks/bridge/dynamodb/DynamoSubpopulationDao.java:50 | after a save, the key holds the saved record and no other record was introduced |
| SubpopulationDao.SavedKeepsOthers | app/org/sagebionetworks/bridge/dynamodb/DynamoSubpopulationDao.java:50 | a save leaves the record under every other key as it was |
| SubpopulationDao.SavedKeepsUnique | app/org/sagebionetworks/bridge/dynamodb/DynamoSubpopulationDao.java:50 | a save keeps (study, guid) keys unique |
| SubpopulationDao.SavedIntoEmptyStudy | app/org/sagebionetworks/bridge/dynamodb/DynamoSubpopulationDao.java:92-100 | the first record saved for a study is that study's only record |
| SubpopulationDao.StudyRecords | app/org/sagebionetworks/bridge/dynamodb/DynamoSubpopulationDao.java:75-80 | the hash-key query returns every physical record of the study, deleted ones included |
| SubpopulationDao.Live | app/org/sagebionetworks/bridge/dynamodb/DynamoSubpopulationDao.java:86-87 | deleted records are dropped unless includeDeleted is set |
| SubpopulationDao.Sort | app/org/sagebionetworks/bridge/dynamodb/DynamoSubpopulationDao.java:88 | the listing is a permutation of its input ordered by the specificity rank |
| SubpopulationDao.InsertPermutes | app/org/sagebionetworks/bridge/dynamodb/DynamoSubpopulationDao.java:88 | inserting an element into a listing adds exactly that element, as a multiset |
| SubpopulationDao.InsertKeepsSorted | app/org/sagebionetworks/bridge/dynamodb/DynamoSubpopulationDao.java:88 | inserting into a listing ordered by rank keeps it ordered by rank |
| SubpopulationDao.MatchesOf | app/org/sagebionetworks/bridge/dynamodb/DynamoSubpopulationDao.java:121-126 | the collected subpopulations are exactly those whose criteria match the context |
| SubpopulationDao.SubpopulationTable.constructor | app/org/sagebionetworks/bridge/dynamodb/DynamoSubpopulationDao.java:42-143 | the table starts empty, with unique keys |
| SubpopulationDao.SubpopulationTable.CreateSubpopulation | app/org/sagebionetworks/bridge/dynamodb/DynamoSubpopulationDao.java:42-52 | a subpopulation with a version, deleted, or required is rejected with BadRequest and nothing is saved; otherwise it is saved and returned |
| SubpopulationDao.SubpopulationTable.GetSubpopulation | app/org/sagebionetworks/bridge/dynamodb/DynamoSubpopulationDao.java:104-113 | a missing key is EntityNotFound; otherwise the stored record under that key |
| SubpopulationDao.SubpopulationTable.UpdateSubpopulation | app/org/sagebionetworks/bridge/dynamodb/DynamoSubpopulationDao.java:55-68 | a missing version is a null dereference; a missing or deleted record is EntityNotFound and nothing is saved; otherwise it is saved with the stored required flag |
| SubpopulationDao.SubpopulationTable.CreateDefaultSubpopulation | app/org/sagebionetworks/bridge/dynamodb/DynamoSubpopulationDao.java:92-101 | the default group is saved and returned |
| SubpopulationDao.SubpopulationTable.GetSubpopulations | app/org/sagebionetworks/bridge/dynamodb/DynamoSubpopulationDao.java:71-89 | returns the specified listing, and saves the default group exactly when it is asked to create one and the study has no physical record |
| SubpopulationDao.SubpopulationTable.GetSubpopulationForUser | app/org/sagebionetworks/bridge/dynamodb/DynamoSubpopulationDao.java:117-133 | returns the best match among the live listing (with the default created if needed) |
| SubpopulationDao.SubpopulationTable.DeleteSubpopulation | app/org/sagebionetworks/bridge/dynamodb/DynamoSubpopulationDao.java:136-143 | a missing record is EntityNotFound; a required one is BadRequest and unchanged; otherwise only its deleted flag is set, and the record is kept |
| SubpopulationDao.CollectMatches | app/org/sagebionetworks/bridge/dynamodb/DynamoSubpopulationDao.java:118-126 | the loop collects exactly the matching subpopulations, in order |
| SubpopulationDao.Listing | app/org/sagebionetworks/bridge/dynamodb/DynamoSubpopulationDao.java:71-89 | the listing is ordered by rank, and holds only the study's records, without deleted ones unless asked |
| SubpopulationDao.ListingMembers | app/org/sagebionetworks/bridge/dynamodb/DynamoSubpopulationDao.java:80-88 | outside the default case the listing holds exactly the study's records that pass the deletion filter |
| SubpopulationDao.BestMatch | app/org/sagebionetworks/bridge/dynamodb/DynamoSubpopulationDao.java:127-132 | null exactly when nothing matches; otherwise a matching subpopulation of least rank among all matches |
| SubpopulationDao.LeastMatch | app/org/sagebionetworks/bridge/dynamodb/DynamoSubpopulationDao.java:131-132 | the head of the sorted matches is a match of least rank |
| SubpopulationDao.ForUserIsLeastLiveMatch | app/org/sagebionetworks/bridge/dynamodb/DynamoSubpopulationDao.java:117-133 | for a study with records, the user's subpopulation is a matching undeleted one of least rank, and null exactly when no undeleted one matches |
| SubpopulationDao.NewStudyGetsDefault | app/org/sagebionetworks/bridge/dynamodb/DynamoSubpopulationDao.java:81-83 | a study without records yields the default group for every user |
| SubpopulationDao.DeletedIsKeptButHidden | app/org/sagebionetworks/bridge/dynamodb/DynamoSubpopulationDao.java:136-143 | a deleted subpopulation stays in the table, flagged, and is absent from the live listing |
| SubpopulationDao.OtherStudyRecords | app/org/sagebionetworks/bridge/dynamodb/DynamoSubpopulationDao.java:146-153 | what remains after the deletion is exactly the records of other studies |
| SubpopulationDao.OtherStudyRecordsKeepUnique | app/org/sagebionetworks/bridge/dynamodb/DynamoSubpopulationDao.java:146-153 | removing one study's records keeps every key unique |
| SubpopulationDao.OtherStudyRecordsSplit | app/org/sagebionetworks/bridge/dynamodb/DynamoSubpopulationDao.java:146-153 | afterwards the study has no records, deleted ones included, and every other study keeps exactly its own records, in order |
| SubpopulationDao.SubpopulationTable.DeleteAllSubpopulations | app/org/sagebionetworks/bridge/dynamodb/DynamoSubpopulationDao.java:146-153 | every record of the study, deleted or not, is removed and nothing else changes |
| ExternalIdDao.Info | app/org/sagebionetworks/bridge/dynamodb/DynamoExternalIdDao.java:131 | a listed entry keeps the identifier and is assigned exactly when a health code is stored |
| ExternalIdDao.Infos | app/org/sagebionetworks/bridge/dynamodb/DynamoExternalIdDao.java:126-132 | one entry per row, in order |
| ExternalIdDao.Fitting | app/org/sagebionetworks/bridge/dynamodb/DynamoExternalIdDao.java:126-132 | the rows added from one read are a prefix of it that never over-fills the page, and a row is left out only when the page is full |
| ExternalIdDao.NextKey | app/org/sagebionetworks/bridge/dynamodb/DynamoExternalIdDao.java:140-148 | with the corrected rule, a read whose rows did not all fit continues after the last returned entry |
| ExternalIdDao.Step | app/org/sagebionetworks/bridge/dynamodb/DynamoExternalIdDao.java:121-148 | one pass adds a fitting prefix without exceeding pageSize; rows are left unreturned only on a full page; a short page continues from the read's last evaluated key |
| ExternalIdDao.Paginate | app/org/sagebionetworks/bridge/dynamodb/DynamoExternalIdDao.java:121-149 | the loop never over-fills the page and stops with no next key unless the page is full; with the corrected rule, unreturned rows are reachable from the next key |
| ExternalIdDao.EffectiveOffset | app/org/sagebionetworks/bridge/dynamodb/DynamoExternalIdDao.java:108-110 | the offset is discarded exactly when an id filter is given that it does not start with; otherwise it is kept |
| ExternalIdDao.AsWrittenDropsRows | app/org/sagebionetworks/bridge/dynamodb/DynamoExternalIdDao.java:140-148 | as written, a full page assembled over two reads has no next key although three rows it read were not returned |
| ExternalIdDao.CorrectedKeepsRows | app/org/sagebionetworks/bridge/dynamodb/DynamoExternalIdDao.java:140-148 | with the corrected rule the same listing continues after its last entry |
| ExternalIdDao.ExternalIdTable.constructor | app/org/sagebionetworks/bridge/dynamodb/DynamoExternalIdDao.java:61-68 | the table starts empty with the configured add limit and maximum page size |
| ExternalIdDao.ExternalIdTable.GetExternalId | app/org/sagebionetworks/bridge/dynamodb/DynamoExternalIdDao.java:83-89 | the stored row with its health code, or nothing when the identifier is not stored |
| ExternalIdDao.ExternalIdTable.ReadPage | app/org/sagebionetworks/bridge/dynamodb/DynamoExternalIdDao.java:124-148 | one pass of the loop adds the rows that fit and picks the next key as the rule says |
| ExternalIdDao.ExternalIdTable.TakeFitting | app/org/sagebionetworks/bridge/dynamodb/DynamoExternalIdDao.java:126-132 | the inner loop appends, in order, the entries of the rows that fit on the page |
| ExternalIdDao.ExternalIdTable.GetExternalIds | app/org/sagebionetworks/bridge/dynamodb/DynamoExternalIdDao.java:92-157 | a page size outside 1..maximum is BadRequest (exactly then); otherwise the result is the paging loop, under the given next-key rule, from the effective offset, with at most pageSize entries |
| ExternalIdDao.ExternalIdTable.AddExternalIds | app/org/sagebionetworks/bridge/dynamodb/DynamoExternalIdDao.java:160-179 | more than addLimit ids is BadRequest and nothing changes; otherwise the stored keys become the old ones plus the given ids, every existing row (and its assignment) is unchanged, and new rows are unassigned |
| ExternalIdDao.ExternalIdTable.AssignExternalId | app/org/sagebionetworks/bridge/dynamodb/DynamoExternalIdDao.java:182-202 | blank arguments are IllegalArgument; a missing id or one already holding this health code is a no-op; a different stored code is EntityAlreadyExists; otherwise the code is set |
| ExternalIdDao.ExternalIdTable.UnassignExternalId | app/org/sagebionetworks/bridge/dynamodb/DynamoExternalIdDao.java:205-217 | a blank id is IllegalArgument; a stored id has its health code cleared; a missing id changes nothing |
| ExternalIdDao.ExternalIdTable.DeleteExternalIds | app/org/sagebionetworks/bridge/dynamodb/DynamoExternalIdDao.java:223-235 | the listed ids are removed and nothing else; an empty list touches nothing |
| Intents.ConsentsGivenNonEmptyIff | app/org/sagebionetworks/bridge/services/IntentService.java:130-146 | registration records some consent exactly when some subpopulation has a cached intent for the account's phone |
| Intents.IntentService.constructor | app/org/sagebionetworks/bridge/services/IntentService.java:30-45 | the service starts with no cached intents, no texts sent and no consents |
| Intents.IntentService.GetInstallLink | app/org/sagebionetworks/bridge/services/IntentService.java:149-160 | the link for the client's OS when there is one, else the Universal link, else some link of the map; no link exactly when the map is empty |
| Intents.IntentService.SubmitIntentToParticipate | app/org/sagebionetworks/bridge/services/IntentService.java:83-122 | an existing account for the phone makes it a no-op; a missing subpopulation is EntityNotFound; the first intent for its key is cached for four hours and texts the install link when the study has any; a repeated intent changes nothing |
| Intents.IntentService.RegisterIntentToParticipate | app/org/sagebionetworks/bridge/services/IntentService.java:124-147 | no phone: false and nothing changes; otherwise one consent per subpopulation with a cached intent, those intents removed, the participant fetched once at most, and true exactly when some intent was found |
| StudyValidator.IdentifierErrors | app/org/sagebionetworks/bridge/validators/StudyValidator.java:57-66 | a blank identifier is only "is required"; a non-blank one is accepted exactly when it matches the identifier pattern and has at least 2 characters, and a 1-character one is always rejected as too short |
| StudyValidator.PasswordPolicyErrors | app/org/sagebionetworks/bridge/validators/StudyValidator.java:96-105 | a missing policy is "is required"; a present one is rejected, once, at passwordPolicy.minLength exactly when minLength is outside 2..the fixed maximum |
| StudyValidator.LimitErrors | app/org/sagebionetworks/bridge/validators/StudyValidator.java:106-111 | no error exactly when the minimum age of consent and the account limit are both non-negative |
| StudyValidator.TemplateErrorsMeaning | app/org/sagebionetworks/bridge/validators/StudyValidator.java:228-245 | a missing template is "is required"; a present one is accepted exactly when subject and body are not blank and the body holds the required variable, and its errors are all under the template's subject or body |
| StudyValidator.AttributesErrorsEmptyIff | app/org/sagebionetworks/bridge/validators/StudyValidator.java:122-132 | no error exactly when every profile attribute is neither reserved nor outside the JavaScript identifier pattern |
| StudyValidator.AttributeErrorsEmptyIff | app/org/sagebionetworks/bridge/validators/StudyValidator.java:123-131 | one attribute draws no error exactly when it is not a reserved name and is a JavaScript identifier |
| StudyValidator.AttributesErrorsStep | app/org/sagebionetworks/bridge/validators/StudyValidator.java:122-132 | the errors of the first i+1 attributes are those of the first i followed by attribute i's own |
| StudyValidator.EmailErrorsMeaning | app/org/sagebionetworks/bridge/validators/StudyValidator.java:219-226 | no error exactly when every address of the list is valid, at most one error per address |
| StudyValidator.InvalidTagErrorsEmptyIff | app/org/sagebionetworks/bridge/validators/StudyValidator.java:249-253 | no tag error exactly when every data group matches the Synapse identifier pattern |
| StudyValidator.InvalidTagMessages | app/org/sagebionetworks/bridge/validators/StudyValidator.java:249-257 | an invalid-tag error is never the over-length message, so the two kinds of data-group error are told apart |
| StudyValidator.DataGroupErrors | app/org/sagebionetworks/bridge/validators/StudyValidator.java:247-259 | no data groups means no error; otherwise the over-length error appears exactly when the comma-space joined groups exceed the Synapse limit, and no error at all exactly when every tag is valid and the join fits |
| StudyValidator.ExternalIdSettingErrors | app/org/sagebionetworks/bridge/validators/StudyValidator.java:142-149 | no error exactly when email verification is on, or external ids are both required on sign-up and validated |
| StudyValidator.BlankEntryErrorsEmptyIff | app/org/sagebionetworks/bridge/validators/StudyValidator.java:159-164 | no error exactly when no entry of the list is blank |
| StudyValidator.AppleLinkCheck | app/org/sagebionetworks/bridge/validators/StudyValidator.java:152-167 | the Apple item check returns the link's app id |
| StudyValidator.AndroidLinkCheck | app/org/sagebionetworks/bridge/validators/StudyValidator.java:170-188 | the Android item check returns namespace + "." + package name, which is never null |
| StudyValidator.IdSetMembers | app/org/sagebionetworks/bridge/validators/StudyValidator.java:193-206 | the set of ids gathered holds exactly the ids that were present |
| StudyValidator.DistinctSplit | app/org/sagebionetworks/bridge/validators/StudyValidator.java:193-206 | ids are distinct exactly when the ones before the last are distinct and the last is present and new |
| StudyValidator.IdSetSize | app/org/sagebionetworks/bridge/validators/StudyValidator.java:209 | the set of ids never outnumbers the links, and matches them exactly when every link has an id and no two share one |
| StudyValidator.LinkIdsStep | app/org/sagebionetworks/bridge/validators/StudyValidator.java:195-207 | the ids after one more pass are the previous ids plus the new link's id when it is not null |
| StudyValidator.UniqueIdsAreIdSet | app/org/sagebionetworks/bridge/validators/StudyValidator.java:193-207 | the loop's id set is the set of the non-null links' ids |
| StudyValidator.LinkCountCountsIds | app/org/sagebionetworks/bridge/validators/StudyValidator.java:194-201 | the loop's count is the number of non-null links |
| StudyValidator.AfterLoopReportsOnlyDuplicates | app/org/sagebionetworks/bridge/validators/StudyValidator.java:192-213 | with the duplicate check after the loop, the duplicate error is reported once, exactly when some non-null link has no id or two share one |
| StudyValidator.WellFormedAppleLink | app/org/sagebionetworks/bridge/validators/StudyValidator.java:152-167 | an Apple link with a non-blank id and one non-blank path passes its item check with its id |
| StudyValidator.TwoAppleItems | app/org/sagebionetworks/bridge/validators/StudyValidator.java:152-167 | the two example Apple links, app.one and app.two, each pass the item check with their own id |
| StudyValidator.TwoDistinctLinks | app/org/sagebionetworks/bridge/validators/StudyValidator.java:192-213 | for any two clean links with different ids, the as-written loop reports a duplicate and the check after the loop does not |
| StudyValidator.TwoLinksState | app/org/sagebionetworks/bridge/validators/StudyValidator.java:192-207 | for two clean links with ids a and b, the id set is {a} then {a, b} while the count stays 2 |
| StudyValidator.LinksFoldStep | app/org/sagebionetworks/bridge/validators/StudyValidator.java:195-211 | the errors after i+1 passes are those after i passes followed by pass i's own: the link's errors, then the duplicate error when the check runs in the loop and the id set is smaller than the count |
| StudyValidator.InLoopFlagsDistinctLinks | app/org/sagebionetworks/bridge/validators/StudyValidator.java:192-213 | as written, two distinct well-formed Apple links are reported as duplicate entries |
| StudyValidator.ValidateIdentifier | app/org/sagebionetworks/bridge/validators/StudyValidator.java:57-66 | records exactly the identifier errors and leaves the nested path as it was |
| StudyValidator.ValidateRequiredNames | app/org/sagebionetworks/bridge/validators/StudyValidator.java:67-77 | records an event-key error when some key is not an identifier, and "is required" for a blank name or sponsor name |
| StudyValidator.ValidateRequiredContacts | app/org/sagebionetworks/bridge/validators/StudyValidator.java:78-94 | records "is required" for blank support, technical and consent-notification addresses and the upload metadata field errors when there are fields |
| StudyValidator.ValidateRequired | app/org/sagebionetworks/bridge/validators/StudyValidator.java:67-94 | records the required-field errors in source order and restores the nested path |
| StudyValidator.ValidatePasswordPolicy | app/org/sagebionetworks/bridge/validators/StudyValidator.java:96-105 | records exactly the password policy errors, pushing and popping passwordPolicy |
| StudyValidator.ValidateLimits | app/org/sagebionetworks/bridge/validators/StudyValidator.java:106-111 | records exactly the limit errors |
| StudyValidator.ValidateTemplate | app/org/sagebionetworks/bridge/validators/StudyValidator.java:228-245 | records exactly the template's errors, pushing and popping the template's name |
| StudyValidator.ValidateTemplates | app/org/sagebionetworks/bridge/validators/StudyValidator.java:112-120 | verify and reset templates require the url variable; the sign-in (token) and account-exists (url) templates are checked only when present |
| StudyValidator.ValidateOptionalTemplate | app/org/sagebionetworks/bridge/validators/StudyValidator.java:115-120 | an absent template records nothing; a present one records exactly its template errors |
| StudyValidator.ValidateAttribute | app/org/sagebionetworks/bridge/validators/StudyValidator.java:123-131 | records the reserved-name and the identifier-pattern errors for one attribute |
| StudyValidator.ValidateAttributes | app/org/sagebionetworks/bridge/validators/StudyValidator.java:122-132 | records each attribute's errors in order |
| StudyValidator.ValidateAttributePass | app/org/sagebionetworks/bridge/validators/StudyValidator.java:122-132 | one pass of the attribute loop takes the recorded errors from those of the first i attributes to those of the first i+1 |
| StudyValidator.ValidateEmails | app/org/sagebionetworks/bridge/validators/StudyValidator.java:219-226 | records one error per invalid address of the comma-separated list |
| StudyValidator.ValidateEmailPass | app/org/sagebionetworks/bridge/validators/StudyValidator.java:221-225 | one pass of the address loop takes the recorded errors from those of the first i addresses to those of the first i+1 |
| StudyValidator.ValidateDataGroupNames | app/org/sagebionetworks/bridge/validators/StudyValidator.java:247-259 | records exactly the data-group errors |
| StudyValidator.ValidateDataGroupPass | app/org/sagebionetworks/bridge/validators/StudyValidator.java:249-253 | one pass of the data-group loop takes the recorded errors from those of the first i groups to those of the first i+1 |
| StudyValidator.ValidateExternalIdSettings | app/org/sagebionetworks/bridge/validators/StudyValidator.java:142-149 | records exactly the external id setting errors |
| StudyValidator.CheckLink | app/org/sagebionetworks/bridge/validators/StudyValidator.java:196-208 | one pass for link i: "cannot be null" for a null link, else the item check's errors under propName[i], and returns the id it gives |
| StudyValidator.ValidateAppLinks | app/org/sagebionetworks/bridge/validators/StudyValidator.java:192-213 | records the app-link errors, with the duplicate check where the rule places it, and restores the nested path |
| StudyValidator.LinkPass | app/org/sagebionetworks/bridge/validators/StudyValidator.java:195-211 | one pass checks link i under `propName[i]`, adds its id, counts a null link out and, where the rule says, checks for duplicates; the errors, id set and count become those after i+1 passes |
| StudyValidator.LinkPasses | app/org/sagebionetworks/bridge/validators/StudyValidator.java:192-212 | after the loop the recorded errors, id set and count are those after every pass |
| StudyValidator.FinalCheck | app/org/sagebionetworks/bridge/validators/StudyValidator.java:209-211 | with the check after the loop, one duplicate error is recorded exactly when the id set is smaller than the count; with the check in the loop nothing more is recorded |
| StudyValidator.ValidateSettings | app/org/sagebionetworks/bridge/validators/StudyValidator.java:57-111 | records the identifier, required-field, password and limit errors in source order |
| StudyValidator.ValidateTexts | app/org/sagebionetworks/bridge/validators/StudyValidator.java:112-133 | records the template, attribute and support-address errors in source order |
| StudyValidator.ValidateLists | app/org/sagebionetworks/bridge/validators/StudyValidator.java:134-149 | records the other address, data-group and external-id setting errors in source order |
| StudyValidator.ValidateLinkList | app/org/sagebionetworks/bridge/validators/StudyValidator.java:151-189 | a missing or empty link list records nothing; otherwise the app-link errors |
| StudyValidator.ValidateLinks | app/org/sagebionetworks/bridge/validators/StudyValidator.java:151-189 | records the Apple then the Android link errors |
| StudyValidator.Validate | app/org/sagebionetworks/bridge/validators/StudyValidator.java:54-190 | records every study error in the order validate checks them and leaves the nested path as it was |
| AppConfigValidator.MissingErrors | app/org/sagebionetworks/bridge/validators/AppConfigValidator.java:47-66 | a reference list yields no error exactly when no element lacks the required field, and never more errors than elements |
| AppConfigValidator.MissingErrorsReportEach | app/org/sagebionetworks/bridge/validators/AppConfigValidator.java:48-54 | every element lacking the field is reported under its own index |
| AppConfigValidator.FieldErrorsEmptyIff | app/org/sagebionetworks/bridge/validators/AppConfigValidator.java:33-41 | no field error exactly when the guid is present or the config is new, and the label and study id are not blank |
| AppConfigValidator.SchemaReferenceErrorsEmptyIff | app/org/sagebionetworks/bridge/validators/AppConfigValidator.java:47-56 | no schema reference error exactly when the list is null or every reference has a revision |
| AppConfigValidator.SurveyReferenceErrorsEmptyIff | app/org/sagebionetworks/bridge/validators/AppConfigValidator.java:57-66 | no survey reference error exactly when the list is null or every reference has a createdOn |
| AppConfigValidator.NoErrorsIffAcceptable | app/org/sagebionetworks/bridge/validators/AppConfigValidator.java:30-67 | validate records nothing exactly when the ids and label are present, the criteria are present and well-formed for the study's data groups, and every reference is pinned to a version |
| AppConfigValidator.NewConfigIgnoresGuid | app/org/sagebionetworks/bridge/validators/AppConfigValidator.java:33-35 | a new config's errors do not depend on its guid |
| AppConfigValidator.RejectMissing | app/org/sagebionetworks/bridge/validators/AppConfigValidator.java:48-55 | the indexed loop records exactly the missing-field errors and restores the nested path |
| AppConfigValidator.ValidateFields | app/org/sagebionetworks/bridge/validators/AppConfigValidator.java:33-41 | records exactly the guid, label and study id errors |
| AppConfigValidator.ValidateSchemaReferences | app/org/sagebionetworks/bridge/validators/AppConfigValidator.java:47-56 | records exactly the schema reference errors |
| AppConfigValidator.ValidateSurveyReferences | app/org/sagebionetworks/bridge/validators/AppConfigValidator.java:57-66 | records exactly the survey reference errors |
| AppConfigValidator.ValidateCriteria | app/org/sagebionetworks/bridge/validators/AppConfigValidator.java:42-46 | missing criteria are "are required"; present ones record the criteria validator's errors |
| AppConfigValidator.Validate | app/org/sagebionetworks/bridge/validators/AppConfigValidator.java:30-67 | records every error of the config in the order validate checks them and restores the nested path |
| CompoundActivityValidator.TaskIdErrors | app/org/sagebionetworks/bridge/validators/CompoundActivityDefinitionValidator.java:47-53 | no task id error exactly when the id is non-blank and declared by the study; a blank or null id is "must be specified" |
| CompoundActivityValidator.CompoundActivityErrors | app/org/sagebionetworks/bridge/validators/CompoundActivityDefinitionValidator.java:38-62 | null is "cannot be null", another type "is the wrong type", and a definition has at most a task id error and a missing-bundle error |
| CompoundActivityValidator.NoErrorsIffValid | app/org/sagebionetworks/bridge/validators/CompoundActivityDefinitionValidator.java:38-62 | a definition is accepted exactly when its task id is non-blank and declared and it has at least one schema or survey |
| UploadHandler.SchemaKeyFor | app/org/sagebionetworks/bridge/upload/GenericUploadFormatHandler.java:90-122 | with a survey guid and createdOn, the schema is the survey's identifier and revision and fails when either is missing; otherwise item and schemaRevision must both be given, else the info.json error |
| UploadHandler.GetUploadSchema | app/org/sagebionetworks/bridge/upload/GenericUploadFormatHandler.java:90-122 | the schema is fetched exactly when a schema key is found, and it is the schema service's for that key |
| UploadHandler.SurveyTakesPrecedence | app/org/sagebionetworks/bridge/upload/GenericUploadFormatHandler.java:94-111 | when both survey fields are given, item and schemaRevision have no effect on the schema chosen |
| UploadHandler.HealthDataRecord.constructor | app/org/sagebionetworks/bridge/upload/GenericUploadFormatHandler.java:69-70 | a record starts with the given data and no schema or createdOn |
| UploadHandler.UploadValidationContext.constructor | app/org/sagebionetworks/bridge/upload/GenericUploadFormatHandler.java:66-72 | a context starts with no messages and no attachments |
| UploadHandler.UploadValidationContext.AddMessage | app/org/sagebionetworks/bridge/upload/GenericUploadFormatHandler.java:138 | the message is appended and the attachments are unchanged |
| UploadHandler.CreatedOnMessages | app/org/sagebionetworks/bridge/upload/GenericUploadFormatHandler.java:127-151 | no message exactly when createdOn parses; otherwise the last message is the fall-back to the current time |
| UploadHandler.ParseCreatedOnToRecord | app/org/sagebionetworks/bridge/upload/GenericUploadFormatHandler.java:127-151 | a parsed createdOn sets the record's time and zone; otherwise the current time is used, and the messages are the createdOn messages |
| UploadHandler.OverrideFields | app/org/sagebionetworks/bridge/upload/GenericUploadFormatHandler.java:169-175 | the data file's fields override the flattened map; every other flattened key keeps its value |
| UploadHandler.CopyJsonField | app/org/sagebionetworks/bridge/upload/GenericUploadFormatHandler.java:195-216 | a null value only adds "Field <name> is null."; an attachment-typed value is added to the attachments when it serialises, and otherwise only the conversion message is added; any other value is stored in the data under the field name |
| UploadHandler.OnlySchemaJsonReachesData | app/org/sagebionetworks/bridge/upload/GenericUploadFormatHandler.java:182-191 | every key in the resulting data map was there before or is a schema field name with its non-null JSON value, never an unzipped file |
| UploadHandler.RouteFieldsKeepsMessages | app/org/sagebionetworks/bridge/upload/GenericUploadFormatHandler.java:182-191 | routing the fields only adds messages |
| UploadHandler.CopyJsonFieldInto | app/org/sagebionetworks/bridge/upload/GenericUploadFormatHandler.java:195-216 | the record and context change exactly as the field copy says, and the record's schema and createdOn stay as they were |
| UploadHandler.HandleData | app/org/sagebionetworks/bridge/upload/GenericUploadFormatHandler.java:155-192 | the record and context end as the routing of the schema's fields over the sanitised, overridden maps, with schema and createdOn unchanged |
| UploadHandler.Handle | app/org/sagebionetworks/bridge/upload/GenericUploadFormatHandler.java:66-86 | the result is getUploadSchema's; a failure changes nothing; on success the schema id and revision are stamped, createdOn and its zone are the parsed ones or now, the createdOn messages come first, and data, attachments and messages are then those of routing every schema field over the overridden JSON |
| SurveyElement.SurveyKeyInjective | app/org/sagebionetworks/bridge/dynamodb/DynamoSurveyElement.java:42-44 | for guids without ':', the compound key determines both the survey guid and its createdOn |
| SurveyElement.StringHash | app/org/sagebionetworks/bridge/dynamodb/DynamoSurveyElement.java:104 | a string's hash is a 32-bit residue, 0 for null |
| SurveyElement.HashOf | app/org/sagebionetworks/bridge/dynamodb/DynamoSurveyElement.java:103-105 | the element hash is a 32-bit residue of the six hashed fields |
| SurveyElement.AsWrittenIgnoresOrderAndKey | app/org/sagebionetworks/bridge/dynamodb/DynamoSurveyElement.java:114-119 | as written, changing another element's order or compound key never changes whether it is equal |
| SurveyElement.OrderShiftsHash | app/org/sagebionetworks/bridge/dynamodb/DynamoSurveyElement.java:103-105 | for an element with only an order in 0..9, the hash is 887503681 + 29791 * order |
| SurveyElement.OrderHashes | app/org/sagebionetworks/bridge/dynamodb/DynamoSurveyElement.java:103-105 | the array hash of six field hashes, all zero but the order in 0..9, is 887503681 + 29791 * order |
| SurveyElement.EqualButHashedApart | app/org/sagebionetworks/bridge/dynamodb/DynamoSurveyElement.java:103-120 | as written, two elements differing only in order are equal yet hash differently |
| SurveyElement.CorrectedEqualsAgreesWithHash | app/org/sagebionetworks/bridge/dynamodb/DynamoSurveyElement.java:103-120 | with order and key compared against the other element, equal elements have equal hashes |
| SurveyElement.CorrectedEqualsIsEquivalence | app/org/sagebionetworks/bridge/dynamodb/DynamoSurveyElement.java:107-120 | the corrected field comparison is reflexive, symmetric and transitive |
| SurveyElement.DynamoSurveyElement.constructor | app/org/sagebionetworks/bridge/dynamodb/DynamoSurveyElement.java:32-33 | a new element has every reference field null and order 0 |
| SurveyElement.DynamoSurveyElement.SetSurveyKeyComponents | app/org/sagebionetworks/bridge/dynamodb/DynamoSurveyElement.java:42-44 | the compound key becomes guid:createdOn and no other field changes |
| SurveyElement.DynamoSurveyElement.SetRules | app/org/sagebionetworks/bridge/dynamodb/DynamoSurveyElement.java:99-101 | the rules become the given list, null included, and no other field changes |
| SurveyElement.DynamoSurveyElement.GetRules | app/org/sagebionetworks/bridge/dynamodb/DynamoSurveyElement.java:89-98 | null exactly when no rules are stored, otherwise a list with the same rules in the same order |
| SurveyElement.DynamoSurveyElement.HashCode | app/org/sagebionetworks/bridge/dynamodb/DynamoSurveyElement.java:102-105 | the element's hash is a 32-bit residue |
| SurveyElement.DynamoSurveyElement.Equals | app/org/sagebionetworks/bridge/dynamodb/DynamoSurveyElement.java:107-120 | an element equals itself; null and other classes are never equal; another element is equal exactly when the field comparison holds |

## Left out

- Timing equalisation on the unknown-account branch of requestChannelSignIn (`Thread.sleep` and the `AtomicLong` latency estimate) depends on the wall clock. The model states only that this branch stores no token and sends nothing.
- The Jedis `incr`/`expire` transaction of the throttle is one atomic step on the cache map. Concurrency is not modelled.
- Secure token generation and GUID generation are parameters: the caller passes the token or GUID that would have been generated.
- JSON (de)serialisation of verification payloads, phones and cache entries is not modelled. Payloads are datatypes, and a cached value of the wrong kind is an explicit deserialisation error.
- Email and SMS message building, URL formatting with encoded arguments, and the mail and notification services are not modelled. Each send is one record appended to an outbox.
- Collaborator services are function parameters or values passed in. This covers account lookup and authentication, participant lookup, consent statuses, the study and subpopulation services, the upload schema and survey services, and the criteria-specificity sorter (a rank function).
- Library checks are parameters of the validators. This covers the identifier, JavaScript-identifier and Synapse-identifier regular expressions, the commons EmailValidator, comma-list splitting, the reflection-built reserved attribute names, and the upload metadata field-definition validator.
- Upper-case to lower-case conversion is over ASCII letters only. Java's locale-aware case folding is not modelled.
- DynamoDB query and filter semantics, the rate limiter and read-capacity accounting are not modelled. getExternalIds is given the query as a function from a start key to a read page, and termination rests on a rank that each last evaluated key lowers.
- ExternalIdDao.ExternalIdTable.GetExternalIds takes the next-key rule as a parameter. With the as-written rule it follows the source, including the rows it drops (see Findings).
- Java sets that the source iterates are sequences, kept in iteration order. Sets only tested for membership are Dafny sets.
- UploadUtil's flattening, field-name sanitising and addAttachment are parameters, and so are DateTime.parse, the current time and the conversion of a survey createdOn to milliseconds. The time-zone text of a parsed createdOn is taken from the parsed value.
- JSON-to-bytes serialisation inside copyJsonField is the `serialize` parameter. Its failure message is the parameter's error text, and attachment-type fields are stored through the addAttachment parameter.
- DynamoSurveyElement's JSON `data` node is not modelled: it takes no part in equals or hashCode. Survey rules are values, and their hash is a parameter.
- String.hashCode is computed over Dafny characters. It agrees with Java for characters in the Basic Multilingual Plane; characters outside it are UTF-16 surrogate pairs in Java, and that case is not modelled.
- AuthenticationService's verifyEmail, resendEmailVerification, requestResetPassword and resetPassword wrappers are not modelled. They delegate to methods (verifyEmail, resendEmailVerificationToken, accountDao.verifyEmail) that are not part of this model.
- The sign-in validators behind `Validate.entityThrowingException` are not modelled. The model starts from requests that passed them.
- phoneSignIn and emailSignIn are not separate members: each is ChannelSignIn with the channel fixed to phone or email.
- AccountWorkflow.AccountWorkflowService.ResendVerificationToken: states that one message goes out over the requested channel. It does not restate the whole send step, which is in the contract of the send method it calls.
- AccountWorkflow.AccountWorkflowService.NotifyAccountExists: the message is a record of kind, recipient and tokens. Template text and URLs are abstracted.
- Authentication.AuthenticationService.SignUp: registerIntentToParticipate is given the new account, because IntentService.registerIntentToParticipate takes an Account (IntentService.java:124) while signUp passes the fetched StudyParticipant (AuthenticationService.java:214). The participant fetch is the `fetchedParticipant` parameter.
- Authentication.AuthenticationService.Reauthenticate: requires the participant service to give the reauthenticated account's participant that account's id, as participantService.getParticipant does. The participant service itself is not part of this model.

## Findings

| source | as written | input that shows it | evidently intended | confidence | as-written member | corrected member |
|---|---|---|---|---|---|---|
| app/org/sagebionetworks/bridge/validators/StudyValidator.java:192-213 | The duplicate check `uniqueAppIDs.size() < len` runs inside the loop, while `len` is already the size of the whole list. | Two well-formed Apple links with app ids "app.one" and "app.two". After the first pass the set holds one id and len is 2, so "cannot contain duplicate entries" is reported. | Report a duplicate only when two non-null links share an id (or a link has none), once, after the loop. | high (not executed) | StudyValidator.InLoopFlagsDistinctLinks | StudyValidator.AfterLoopReportsOnlyDuplicates |
| app/org/sagebionetworks/bridge/dynamodb/DynamoExternalIdDao.java:140-148 | When a later read's rows do not all fit, the next key is the read's last evaluated key unless that read alone had more than pageSize rows. | pageSize 5. The first read returns a, b, c with last key "c"; the second returns d, e, f, g, h with no last key. The page is a..e with no next key, so f, g and h are never listed. | Whenever rows of a read were left out, continue after the last returned entry (here "e"). | high (not executed) | ExternalIdDao.AsWrittenDropsRows | ExternalIdDao.CorrectedKeepsRows |
| app/org/sagebionetworks/bridge/dynamodb/DynamoSurveyElement.java:103-120 | equals compares order and surveyCompoundKey with this object's own, but hashCode includes both. | Two elements with every reference field null and orders 0 and 1. They are equal, yet their hashes are 887503681 and 887533472. | Compare order and surveyCompoundKey with the other object, so equal elements hash alike. | high (not executed) | SurveyElement.EqualButHashedApart | SurveyElement.CorrectedEqualsAgreesWithHash |

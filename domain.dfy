/**
 * Entities shared by the services: channels, phones, accounts and their
 * identifiers, sign-in requests, the study configuration, and the exceptions
 * the services throw.
 */
module Domain {
  import opened Wrappers

  datatype ChannelType = EMAIL | PHONE

  datatype Phone = Phone(number: string, regionCode: string)

  datatype AccountStatus = ENABLED | DISABLED | UNVERIFIED

  /** AccountId.forId / forEmail / forPhone. */
  datatype AccountId =
    | ForId(studyId: string, id: string)
    | ForEmail(studyId: string, email: string)
    | ForPhone(studyId: string, phone: Phone)

  datatype Account = Account(
    id: string,
    studyId: string,
    healthCode: string,
    email: Option<string>,
    emailVerified: bool,
    phone: Option<Phone>,
    phoneVerified: bool,
    status: AccountStatus,
    reauthToken: string)

  /** A sign-in request: one identifier (email or phone) plus a password, token or reauth token. */
  datatype SignIn = SignIn(
    studyId: string,
    email: Option<string>,
    phone: Option<Phone>,
    password: Option<string>,
    token: Option<string>,
    reauthToken: Option<string>)

  /** The account a sign-in request names: by email when it has one, otherwise by phone. */
  function AccountIdOf(signIn: SignIn): AccountId
    requires signIn.email.Some? || signIn.phone.Some?
  {
    if signIn.email.Some? then ForEmail(signIn.studyId, signIn.email.value)
    else ForPhone(signIn.studyId, signIn.phone.value)
  }

  datatype StudyParticipant = StudyParticipant(
    id: string,
    healthCode: string,
    phone: Option<Phone>,
    languages: seq<string>,
    dataGroups: set<string>,
    roles: set<string>)

  datatype EmailTemplate = EmailTemplate(subject: string, body: string)

  datatype PasswordPolicy = PasswordPolicy(minLength: int)

  datatype AppleAppLink = AppleAppLink(appId: Option<string>, paths: Option<seq<string>>)

  datatype AndroidAppLink = AndroidAppLink(
    namespace: Option<string>, packageName: Option<string>, fingerprints: Option<seq<string>>)

  datatype UploadFieldDefinition = UploadFieldDefinition(name: string, fieldType: string)

  /** The study (tenant) configuration fields the services and the validator read. */
  datatype Study = Study(
    identifier: string,
    name: string,
    sponsorName: string,
    supportEmail: string,
    technicalEmail: string,
    consentNotificationEmail: string,
    activityEventKeys: seq<string>,
    uploadMetadataFieldDefinitions: seq<UploadFieldDefinition>,
    passwordPolicy: Option<PasswordPolicy>,
    minAgeOfConsent: int,
    accountLimit: int,
    verifyEmailTemplate: Option<EmailTemplate>,
    resetPasswordTemplate: Option<EmailTemplate>,
    emailSignInTemplate: Option<EmailTemplate>,
    accountExistsTemplate: Option<EmailTemplate>,
    userProfileAttributes: seq<string>,
    dataGroups: Option<seq<string>>,
    emailVerificationEnabled: bool,
    externalIdRequiredOnSignup: bool,
    externalIdValidationEnabled: bool,
    emailSignInEnabled: bool,
    appleAppLinks: Option<seq<Option<AppleAppLink>>>,
    androidAppLinks: Option<seq<Option<AndroidAppLink>>>,
    installLinks: map<string, string>)

  /** The exceptions the services throw, by class. Deserialization stands for a stored value the
    * object mapper cannot read back (surfacing as BridgeServiceException), IndexOutOfBounds and
    * NullPointer for the runtime exceptions of substring and of dereferencing a missing account. */
  datatype BridgeError =
    | BadRequest(message: string)
    | EntityNotFound(entity: string)
    | EntityAlreadyExists(entity: string, key: string)
    | Unauthorized(message: string)
    | AuthenticationFailed
    | AccountDisabled
    | IllegalArgument
    | Deserialization
    | IndexOutOfBounds
    | NullPointer
    | UploadValidation(message: string)

  /** A reference to an upload schema by id, with an optional revision. */
  datatype SchemaReference = SchemaReference(id: string, revision: Option<int>)

  /** A reference to a survey by guid, with an optional createdOn timestamp. */
  datatype SurveyReference = SurveyReference(guid: string, createdOn: Option<int>)
}

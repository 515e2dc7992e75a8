/**
 * StudyValidator: the checks a study's configuration must pass, recorded in a
 * Spring Errors sink. Each group of checks is a function giving the errors it
 * records under a nested path, and a method that records them.
 */
module StudyValidator {
  import opened Wrappers
  import opened Text
  import opened Validation
  import opened Domain

  const MAX_SYNAPSE_LENGTH := 100

  /** The helpers the validator relies on that this model does not contain. */
  datatype StudyChecks = StudyChecks(
    /** BridgeConstants.BRIDGE_IDENTIFIER_PATTERN, JS_IDENTIFIER_PATTERN and SYNAPSE_IDENTIFIER_PATTERN */
    isBridgeIdentifier: string -> bool,
    isJsIdentifier: string -> bool,
    isSynapseIdentifier: string -> bool,
    /** commons EmailValidator and BridgeUtils.commaListToOrderedSet */
    isValidEmail: string -> bool,
    commaListToOrderedSet: string -> seq<string>,
    /** the non-static field names of StudyParticipant */
    reservedAttrNames: set<string>,
    /** UploadFieldDefinitionListValidator, given the nested path it runs under */
    uploadFieldErrors: (string, seq<UploadFieldDefinition>) -> seq<FieldError>,
    /** PasswordPolicy.FIXED_MAX_LENGTH */
    fixedMaxLength: int)

  /** Where the duplicate-link check runs: inside the loop, as written, or once after it. */
  datatype DuplicateCheck = InLoop | AfterLoop

  const IDENTIFIER_PATTERN_MESSAGE := "must contain only lower-case letters and/or numbers with optional dashes"

  function IdentifierErrors(p: string, identifier: string, checks: StudyChecks): (r: seq<FieldError>)
    ensures IsBlank(identifier) ==> r == [Rejection(p, "identifier", "is required")]
    ensures !IsBlank(identifier) && |identifier| < 2 ==> Rejection(p, "identifier", "must be at least 2 characters") in r
    ensures !IsBlank(identifier) ==> (r == [] <==> checks.isBridgeIdentifier(identifier) && |identifier| >= 2)
  {
    if IsBlank(identifier) then [Rejection(p, "identifier", "is required")]
    else
      RejectIf(!checks.isBridgeIdentifier(identifier), p, "identifier", IDENTIFIER_PATTERN_MESSAGE) +
      RejectIf(|identifier| < 2, p, "identifier", "must be at least 2 characters")
  }

  /** The required names and addresses, the event keys and the upload metadata fields. */
  function RequiredErrors(p: string, s: Study, checks: StudyChecks): seq<FieldError> {
    RequiredNameErrors(p, s, checks) + RequiredContactErrors(p, s, checks)
  }

  /** The activity event keys, the name and the sponsor name. */
  function RequiredNameErrors(p: string, s: Study, checks: StudyChecks): seq<FieldError> {
    RejectIf(exists k :: k in s.activityEventKeys && !checks.isBridgeIdentifier(k), p, "activityEventKeys", IDENTIFIER_PATTERN_MESSAGE) +
    RejectIf(IsBlank(s.name), p, "name", "is required") +
    RejectIf(IsBlank(s.sponsorName), p, "sponsorName", "is required")
  }

  /** The contact addresses and the upload metadata fields. */
  function RequiredContactErrors(p: string, s: Study, checks: StudyChecks): seq<FieldError> {
    RejectIf(IsBlank(s.supportEmail), p, "supportEmail", "is required") +
    RejectIf(IsBlank(s.technicalEmail), p, "technicalEmail", "is required") +
    (if s.uploadMetadataFieldDefinitions != [] then checks.uploadFieldErrors(p, s.uploadMetadataFieldDefinitions) else []) +
    RejectIf(IsBlank(s.consentNotificationEmail), p, "consentNotificationEmail", "is required")
  }

  /** isInRange(value, min): from min up to the fixed maximum, both included. */
  predicate InRange(value: int, min: int, max: int) {
    min <= value <= max
  }

  function PasswordPolicyErrors(p: string, policy: Option<PasswordPolicy>, max: int): (r: seq<FieldError>)
    ensures policy.None? ==> r == [Rejection(p, "passwordPolicy", "is required")]
    ensures policy.Some? ==> (r == [] <==> 2 <= policy.value.minLength <= max)
    ensures policy.Some? && r != [] ==>
      r == [SubpathRejection(p, "passwordPolicy", "minLength", "must be 2-" + IntToDecimal(max) + " characters")]
  {
    if policy.None? then [Rejection(p, "passwordPolicy", "is required")]
    else if !InRange(policy.value.minLength, 2, max) then
      [SubpathRejection(p, "passwordPolicy", "minLength", "must be 2-" + IntToDecimal(max) + " characters")]
    else []
  }

  function LimitErrors(p: string, s: Study): (r: seq<FieldError>)
    ensures r == [] <==> s.minAgeOfConsent >= 0 && s.accountLimit >= 0
  {
    RejectIf(s.minAgeOfConsent < 0, p, "minAgeOfConsent", "must be zero (no minimum age of consent) or higher") +
    RejectIf(s.accountLimit < 0, p, "accountLimit", "must be zero (no limit set) or higher")
  }

  /** validateTemplate: a template needs a subject and a body holding the required variable. */
  function TemplateErrors(p: string, template: Option<EmailTemplate>, fieldName: string, requiredVariable: string): seq<FieldError> {
    if template.None? then [Rejection(p, fieldName, "is required")]
    else
      var q := PushedPath(p, fieldName);
      var t := template.value;
      RejectIf(IsBlank(t.subject), q, "subject", "is required") +
      (if IsBlank(t.body) then [Rejection(q, "body", "is required")]
       else RejectIf(!Contains(t.body, requiredVariable), q, "body", "must contain the " + requiredVariable + " template variable"))
  }

  /** A missing template is only "is required"; a present one is accepted exactly when its subject and body are
    * not blank and the body holds the variable, and its errors are all about the subject or the body. */
  lemma TemplateErrorsMeaning(p: string, template: Option<EmailTemplate>, fieldName: string, requiredVariable: string)
    ensures var r := TemplateErrors(p, template, fieldName, requiredVariable);
      (template.None? ==> r == [Rejection(p, fieldName, "is required")]) &&
      (template.Some? ==>
        (r == [] <==> !IsBlank(template.value.subject) && !IsBlank(template.value.body) && Contains(template.value.body, requiredVariable))) &&
      (template.Some? ==> forall e :: e in r ==> e.field in {FieldPath(PushedPath(p, fieldName), "subject"), FieldPath(PushedPath(p, fieldName), "body")})
  {
  }

  /** The verify and reset templates are required; the sign-in and account-exists ones are checked when present. */
  function TemplatesErrors(p: string, s: Study): seq<FieldError> {
    TemplateErrors(p, s.verifyEmailTemplate, "verifyEmailTemplate", "${url}") +
    TemplateErrors(p, s.resetPasswordTemplate, "resetPasswordTemplate", "${url}") +
    OptionalTemplateErrors(p, s.emailSignInTemplate, "emailSignInTemplate", "${token}") +
    OptionalTemplateErrors(p, s.accountExistsTemplate, "accountExistsTemplate", "${url}")
  }

  /** A template validate only looks at when the study has one. */
  function OptionalTemplateErrors(p: string, template: Option<EmailTemplate>, fieldName: string, requiredVariable: string): seq<FieldError> {
    if template.Some? then TemplateErrors(p, template, fieldName, requiredVariable) else []
  }

  function ReservedAttributeMessage(attribute: string): string {
    "'" + attribute + "' conflicts with existing user profile property"
  }

  function AttributeNameMessage(attribute: string): string {
    "'" + attribute + "' must contain only digits, letters, underscores and dashes, and cannot start with a dash"
  }

  function AttributeErrors(p: string, attribute: string, checks: StudyChecks): seq<FieldError> {
    RejectIf(attribute in checks.reservedAttrNames, p, "userProfileAttributes", ReservedAttributeMessage(attribute)) +
    RejectIf(!checks.isJsIdentifier(attribute), p, "userProfileAttributes", AttributeNameMessage(attribute))
  }

  /** The errors for each user profile attribute in turn. */
  function AttributesErrors(p: string, attributes: seq<string>, checks: StudyChecks): seq<FieldError> {
    if attributes == [] then []
    else AttributesErrors(p, attributes[..|attributes| - 1], checks) + AttributeErrors(p, attributes[|attributes| - 1], checks)
  }

  /** No attribute error exactly when every attribute is unreserved and a JavaScript identifier. */
  lemma {:induction false} AttributesErrorsEmptyIff(p: string, attributes: seq<string>, checks: StudyChecks)
    ensures AttributesErrors(p, attributes, checks) == [] <==>
      forall a :: a in attributes ==> a !in checks.reservedAttrNames && checks.isJsIdentifier(a)
  {
    if attributes != [] {
      var init, last := attributes[..|attributes| - 1], attributes[|attributes| - 1];
      AttributesErrorsEmptyIff(p, init, checks);
      AttributeErrorsEmptyIff(p, last, checks);
      InitLastMembers(attributes);
      AppendEmpty(AttributesErrors(p, init, checks), AttributeErrors(p, last, checks));
    }
  }

  lemma AttributeErrorsEmptyIff(p: string, attribute: string, checks: StudyChecks)
    ensures AttributeErrors(p, attribute, checks) == [] <==>
      attribute !in checks.reservedAttrNames && checks.isJsIdentifier(attribute)
  {
    var a := RejectIf(attribute in checks.reservedAttrNames, p, "userProfileAttributes", ReservedAttributeMessage(attribute));
    var b := RejectIf(!checks.isJsIdentifier(attribute), p, "userProfileAttributes", AttributeNameMessage(attribute));
    assert |a + b| == |a| + |b|;
  }

  /** validateEmails over the addresses of a comma-separated list. */
  function EmailErrors(p: string, fieldName: string, emails: seq<string>, checks: StudyChecks): seq<FieldError> {
    if emails == [] then []
    else
      var last := emails[|emails| - 1];
      EmailErrors(p, fieldName, emails[..|emails| - 1], checks) +
      RejectIf(!checks.isValidEmail(last), p, fieldName, fieldName + " '" + last + "' is not a valid email address")
  }

  /** No address error exactly when every address is valid, and never more errors than addresses. */
  lemma {:induction false} EmailErrorsMeaning(p: string, fieldName: string, emails: seq<string>, checks: StudyChecks)
    ensures EmailErrors(p, fieldName, emails, checks) == [] <==> forall e :: e in emails ==> checks.isValidEmail(e)
    ensures |EmailErrors(p, fieldName, emails, checks)| <= |emails|
  {
    if emails != [] {
      var init, last := emails[..|emails| - 1], emails[|emails| - 1];
      EmailErrorsMeaning(p, fieldName, init, checks);
      InitLastMembers(emails);
      AppendEmpty(EmailErrors(p, fieldName, init, checks),
                  RejectIf(!checks.isValidEmail(last), p, fieldName, fieldName + " '" + last + "' is not a valid email address"));
    }
  }

  function InvalidTagErrors(p: string, groups: seq<string>, checks: StudyChecks): seq<FieldError> {
    if groups == [] then []
    else
      var last := groups[|groups| - 1];
      InvalidTagErrors(p, groups[..|groups| - 1], checks) +
      RejectIf(!checks.isSynapseIdentifier(last), p, "dataGroups", InvalidTagMessage(last))
  }

  function InvalidTagMessage(group: string): string {
    "contains invalid tag '" + group + "' (only letters, numbers, underscore and dash allowed)"
  }

  /** No tag error exactly when every data group is a Synapse identifier. */
  lemma {:induction false} InvalidTagErrorsEmptyIff(p: string, groups: seq<string>, checks: StudyChecks)
    ensures InvalidTagErrors(p, groups, checks) == [] <==> forall g :: g in groups ==> checks.isSynapseIdentifier(g)
  {
    if groups != [] {
      var init, last := groups[..|groups| - 1], groups[|groups| - 1];
      InvalidTagErrorsEmptyIff(p, init, checks);
      InitLastMembers(groups);
      AppendEmpty(InvalidTagErrors(p, init, checks), RejectIf(!checks.isSynapseIdentifier(last), p, "dataGroups", InvalidTagMessage(last)));
    }
  }

  function SynapseLengthMessage(serialized: string): string {
    "will not export to Synapse (string is over " + IntToDecimal(MAX_SYNAPSE_LENGTH) + " characters: '" + serialized + "')"
  }

  /** validateDataGroupNamesAndFitForSynapseExport. */
  function DataGroupErrors(p: string, groups: Option<seq<string>>, checks: StudyChecks): (r: seq<FieldError>)
    ensures groups.None? ==> r == []
    ensures groups.Some? ==>
      (Rejection(p, "dataGroups", SynapseLengthMessage(Join(groups.value, ", "))) in r <==> |Join(groups.value, ", ")| > MAX_SYNAPSE_LENGTH)
    ensures groups.Some? ==>
      (r == [] <==> (forall g :: g in groups.value ==> checks.isSynapseIdentifier(g)) && |Join(groups.value, ", ")| <= MAX_SYNAPSE_LENGTH)
  {
    if groups.None? then []
    else
      var ser := Join(groups.value, ", ");
      var tags := InvalidTagErrors(p, groups.value, checks);
      InvalidTagErrorsEmptyIff(p, groups.value, checks);
      assert forall e :: e in tags ==> e.message != SynapseLengthMessage(ser) by {
        InvalidTagMessages(p, groups.value, checks, ser);
      }
      tags + RejectIf(|ser| > MAX_SYNAPSE_LENGTH, p, "dataGroups", SynapseLengthMessage(ser))
  }

  lemma {:induction false} InvalidTagMessages(p: string, groups: seq<string>, checks: StudyChecks, ser: string)
    ensures forall e :: e in InvalidTagErrors(p, groups, checks) ==> e.message != SynapseLengthMessage(ser)
  {
    if groups != [] {
      InvalidTagMessages(p, groups[..|groups| - 1], checks, ser);
      var last := groups[|groups| - 1];
      var m := InvalidTagMessage(last);
      var w := "will not export to Synapse (string is over ";
      assert SynapseLengthMessage(ser) == w + (IntToDecimal(MAX_SYNAPSE_LENGTH) + " characters: '" + ser + "')");
      assert m[0] == 'c' && SynapseLengthMessage(ser)[0] == 'w';
    }
  }

  /** A study without email verification must require and validate external ids. */
  function ExternalIdSettingErrors(p: string, s: Study): (r: seq<FieldError>)
    ensures r == [] <==> s.emailVerificationEnabled || (s.externalIdRequiredOnSignup && s.externalIdValidationEnabled)
  {
    if s.emailVerificationEnabled then []
    else
      RejectIf(!s.externalIdRequiredOnSignup, p, "externalIdRequiredOnSignup", "cannot be disabled if email verification has been disabled") +
      RejectIf(!s.externalIdValidationEnabled, p, "externalIdValidationEnabled", "cannot be disabled if email verification has been disabled")
  }

  /** One error per blank entry of a list, at `name[i]`. */
  function BlankEntryErrors(q: string, name: string, entries: seq<string>, message: string): seq<FieldError> {
    if entries == [] then []
    else
      var n := |entries| - 1;
      BlankEntryErrors(q, name, entries[..n], message) + RejectIf(IsBlank(entries[n]), q, Indexed(name, n), message)
  }

  /** No entry error exactly when no entry is blank. */
  lemma {:induction false} BlankEntryErrorsEmptyIff(q: string, name: string, entries: seq<string>, message: string)
    ensures BlankEntryErrors(q, name, entries, message) == [] <==> forall e :: e in entries ==> !IsBlank(e)
  {
    if entries != [] {
      var n := |entries| - 1;
      BlankEntryErrorsEmptyIff(q, name, entries[..n], message);
      InitLastMembers(entries);
      AppendEmpty(BlankEntryErrors(q, name, entries[..n], message), RejectIf(IsBlank(entries[n]), q, Indexed(name, n), message));
    }
  }

  /** Java's rendering of a possibly null string in a concatenation. */
  function NullableText(s: Option<string>): string {
    if s.None? then "null" else s.value
  }

  /** The item check for an Apple link, under the link's nested path: its errors and its id. */
  function AppleLinkCheck(q: string, link: AppleAppLink): (r: (seq<FieldError>, Option<string>))
    ensures r.1 == link.appId
  {
    (RejectIf(IsBlankOrNull(link.appId), q, "appId", "cannot be blank or null") +
     (if link.paths.None? || link.paths.value == [] then [Rejection(q, "paths", "cannot be null or empty")]
      else BlankEntryErrors(q, "paths", link.paths.value, "cannot be blank or empty")),
     link.appId)
  }

  /** The item check for an Android link; its id is namespace + "." + package name, never null. */
  function AndroidLinkCheck(q: string, link: AndroidAppLink): (r: (seq<FieldError>, Option<string>))
    ensures r.1 == Some(NullableText(link.namespace) + "." + NullableText(link.packageName))
  {
    (RejectIf(IsBlankOrNull(link.namespace), q, "namespace", "cannot be blank or null") +
     RejectIf(IsBlankOrNull(link.packageName), q, "packageName", "cannot be blank or null") +
     (if link.fingerprints.None? || link.fingerprints.value == [] then [Rejection(q, "fingerprints", "cannot be null or empty")]
      else BlankEntryErrors(q, "fingerprints", link.fingerprints.value, "cannot be null or empty")),
     Some(NullableText(link.namespace) + "." + NullableText(link.packageName)))
  }

  /** The state of validateAppLinks' loop: errors so far, the ids seen and the count of non-null links. */
  function DuplicateError(p: string, propName: string): FieldError {
    Rejection(p, propName, "cannot contain duplicate entries")
  }

  /** What validateAppLinks records for link i itself, under `propName[i]`: a null error, or the item check's errors. */
  function ItemErrors<L>(p: string, propName: string, i: nat, link: Option<L>,
                         check: (string, L) -> (seq<FieldError>, Option<string>)): seq<FieldError>
  {
    var q := PushedPath(p, Indexed(propName, i));
    if link.None? then [Rejection(q, "", "cannot be null")] else check(q, link.value).0
  }

  /** The app id the item check gives link i, if any. */
  function ItemId<L>(p: string, propName: string, i: nat, link: Option<L>,
                     check: (string, L) -> (seq<FieldError>, Option<string>)): Option<string>
  {
    if link.None? then None else check(PushedPath(p, Indexed(propName, i)), link.value).1
  }

  /** uniqueAppIds after the loop's first n passes: the ids of the non-null links among them. */
  function UniqueIds<L>(p: string, propName: string, links: seq<Option<L>>, n: nat,
                        check: (string, L) -> (seq<FieldError>, Option<string>)): set<string>
    requires n <= |links|
  {
    if n == 0 then {}
    else
      var id := ItemId(p, propName, n - 1, links[n - 1], check);
      UniqueIds(p, propName, links, n - 1, check) + (if id.Some? then {id.value} else {})
  }

  /** len after the loop's first n passes: the list's size less the null links among them. */
  function LinkCount<L>(links: seq<Option<L>>, n: nat): int
    requires n <= |links|
  {
    if n == 0 then |links| else LinkCount(links, n - 1) - (if links[n - 1].None? then 1 else 0)
  }

  /** The errors after the loop's first n passes; as written, each pass ends with the duplicate check. */
  function LinksFold<L>(rule: DuplicateCheck, p: string, propName: string, links: seq<Option<L>>, n: nat,
                        check: (string, L) -> (seq<FieldError>, Option<string>)): seq<FieldError>
    requires n <= |links|
  {
    if n == 0 then []
    else
      var errs := LinksFold(rule, p, propName, links, n - 1, check) + ItemErrors(p, propName, n - 1, links[n - 1], check);
      if rule.InLoop? && |UniqueIds(p, propName, links, n, check)| < LinkCount(links, n) then errs + [DuplicateError(p, propName)]
      else errs
  }

  /** validateAppLinks' errors; with the check after the loop, the duplicate error comes once, at the end. */
  function AppLinksErrors<L>(rule: DuplicateCheck, p: string, propName: string, links: seq<Option<L>>,
                             check: (string, L) -> (seq<FieldError>, Option<string>)): seq<FieldError>
  {
    LinksFold(rule, p, propName, links, |links|, check) + FinalCheckErrors(rule, p, propName, links, check)
  }

  /** The duplicate error recorded after the loop, which only the corrected placement has. */
  function FinalCheckErrors<L>(rule: DuplicateCheck, p: string, propName: string, links: seq<Option<L>>,
                               check: (string, L) -> (seq<FieldError>, Option<string>)): seq<FieldError>
  {
    if rule.AfterLoop? && |UniqueIds(p, propName, links, |links|, check)| < LinkCount(links, |links|)
    then [DuplicateError(p, propName)] else []
  }

  /** The ids the item check gives the non-null links among the first n. */
  function LinkIds<L>(p: string, propName: string, links: seq<Option<L>>, n: nat,
                      check: (string, L) -> (seq<FieldError>, Option<string>)): seq<Option<string>>
    requires n <= |links|
  {
    if n == 0 then []
    else
      var ids := LinkIds(p, propName, links, n - 1, check);
      if links[n - 1].None? then ids else ids + [ItemId(p, propName, n - 1, links[n - 1], check)]
  }

  /** Every link has an id and no two links share one. */
  predicate DistinctIds(ids: seq<Option<string>>) {
    (forall i :: 0 <= i < |ids| ==> ids[i].Some?) && forall i, j :: 0 <= i < j < |ids| ==> ids[i] != ids[j]
  }

  /** The ids present, as a set. */
  function IdSet(ids: seq<Option<string>>): set<string> {
    if ids == [] then {}
    else
      var last := ids[|ids| - 1];
      IdSet(ids[..|ids| - 1]) + (if last.Some? then {last.value} else {})
  }

  /** The id set holds exactly the ids present. */
  lemma {:induction false} IdSetMembers(ids: seq<Option<string>>)
    ensures forall x :: x in IdSet(ids) <==> Some(x) in ids
  {
    if ids != [] {
      var init, last := ids[..|ids| - 1], ids[|ids| - 1];
      IdSetMembers(init);
      assert forall o :: o in ids <==> o in init || o == last;
    }
  }

  /** Distinct ids are distinct without the last one, which is new. */
  lemma DistinctSplit(ids: seq<Option<string>>)
    requires ids != []
    ensures DistinctIds(ids) <==>
      DistinctIds(ids[..|ids| - 1]) && ids[|ids| - 1].Some? && ids[|ids| - 1] !in ids[..|ids| - 1]
  {
    var init, last := ids[..|ids| - 1], ids[|ids| - 1];
    if DistinctIds(ids) {
      assert DistinctIds(init) by {
        forall i, j | 0 <= i < j < |init| ensures init[i] != init[j] {
          assert ids[i] != ids[j];
        }
      }
    }
    if DistinctIds(init) && last.Some? && last !in init {
      forall i, j | 0 <= i < j < |ids| ensures ids[i] != ids[j] {
        if j < |ids| - 1 {
          assert init[i] != init[j];
        } else {
          assert ids[i] == init[i];
        }
      }
    }
  }

  /** The id set never outnumbers the links, and matches them in number exactly when the ids are distinct. */
  lemma {:induction false} IdSetSize(ids: seq<Option<string>>)
    ensures |IdSet(ids)| <= |ids|
    ensures |IdSet(ids)| == |ids| <==> DistinctIds(ids)
  {
    if ids != [] {
      var init, last := ids[..|ids| - 1], ids[|ids| - 1];
      IdSetSize(init);
      DistinctSplit(ids);
      IdSetMembers(init);
      assert IdSet(ids) == IdSet(init) + (if last.Some? then {last.value} else {});
      if last.Some? && last in init {
        assert last.value in IdSet(init);
      }
    }
  }

  /** The ids of the first n links, extended by link n. */
  lemma LinkIdsStep<L>(p: string, propName: string, links: seq<Option<L>>, n: nat,
                       check: (string, L) -> (seq<FieldError>, Option<string>))
    requires 0 < n <= |links|
    ensures var ids := LinkIds(p, propName, links, n - 1, check);
      var ids' := LinkIds(p, propName, links, n, check);
      var link := links[n - 1];
      (link.None? ==> ids' == ids) &&
      (link.Some? ==> ids' == ids + [ItemId(p, propName, n - 1, link, check)])
  {
  }

  lemma IdSetAppend(ids: seq<Option<string>>, id: Option<string>)
    ensures IdSet(ids + [id]) == IdSet(ids) + (if id.Some? then {id.value} else {})
  {
    assert (ids + [id])[..|ids|] == ids;
  }

  /** The loop's set is that of the non-null links' ids. */
  lemma {:induction false} UniqueIdsAreIdSet<L>(p: string, propName: string, links: seq<Option<L>>, n: nat,
                                                check: (string, L) -> (seq<FieldError>, Option<string>))
    requires n <= |links|
    ensures UniqueIds(p, propName, links, n, check) == IdSet(LinkIds(p, propName, links, n, check))
  {
    if n > 0 {
      UniqueIdsAreIdSet(p, propName, links, n - 1, check);
      LinkIdsStep(p, propName, links, n, check);
      var ids := LinkIds(p, propName, links, n - 1, check);
      if links[n - 1].Some? {
        IdSetAppend(ids, ItemId(p, propName, n - 1, links[n - 1], check));
      }
    }
  }

  /** The loop's count is that of the links the ids come from. */
  lemma {:induction false} LinkCountCountsIds<L>(p: string, propName: string, links: seq<Option<L>>, n: nat,
                                                 check: (string, L) -> (seq<FieldError>, Option<string>))
    requires n <= |links|
    ensures LinkCount(links, n) == |links| - n + |LinkIds(p, propName, links, n, check)|
  {
    if n > 0 {
      LinkCountCountsIds(p, propName, links, n - 1, check);
      LinkIdsStep(p, propName, links, n, check);
    }
  }

  /** With the check after the loop, the duplicate error is reported exactly when some non-null link has
    * no id or two non-null links share one. */
  lemma AfterLoopReportsOnlyDuplicates<L>(p: string, propName: string, links: seq<Option<L>>,
                                          check: (string, L) -> (seq<FieldError>, Option<string>))
    ensures AppLinksErrors(AfterLoop, p, propName, links, check) ==
      LinksFold(AfterLoop, p, propName, links, |links|, check) + (if DistinctIds(LinkIds(p, propName, links, |links|, check)) then [] else [DuplicateError(p, propName)])
  {
    UniqueIdsAreIdSet(p, propName, links, |links|, check);
    LinkCountCountsIds(p, propName, links, |links|, check);
    IdSetSize(LinkIds(p, propName, links, |links|, check));
  }

  /** An Apple link with a non-blank id and one non-blank path passes its item check. */
  lemma WellFormedAppleLink(q: string, appId: string, path: string)
    requires |appId| > 0 && !IsWhitespace(appId[0]) && |path| > 0 && !IsWhitespace(path[0])
    ensures AppleLinkCheck(q, AppleAppLink(Some(appId), Some([path]))) == ([], Some(appId))
  {
    assert [path][..0] == [];
    assert BlankEntryErrors(q, "paths", [path], "cannot be blank or empty") == [];
  }

  /** Two well-formed Apple links with different ids. */
  const TwoAppleLinks := [Some(AppleAppLink(Some("app.one"), Some(["/one"]))), Some(AppleAppLink(Some("app.two"), Some(["/two"])))]

  /** Each of TwoAppleLinks passes the item check with its own id. */
  lemma TwoAppleItems()
    ensures ItemErrors("", "appleAppLinks", 0, TwoAppleLinks[0], AppleLinkCheck) == []
    ensures ItemId("", "appleAppLinks", 0, TwoAppleLinks[0], AppleLinkCheck) == Some("app.one")
    ensures ItemErrors("", "appleAppLinks", 1, TwoAppleLinks[1], AppleLinkCheck) == []
    ensures ItemId("", "appleAppLinks", 1, TwoAppleLinks[1], AppleLinkCheck) == Some("app.two")
  {
    WellFormedAppleLink(PushedPath("", Indexed("appleAppLinks", 0)), "app.one", "/one");
    WellFormedAppleLink(PushedPath("", Indexed("appleAppLinks", 1)), "app.two", "/two");
  }

  /** Two non-null links that pass the item check with different ids: as written the first pass
    * already reports a duplicate; checked after the loop, nothing is reported. */
  lemma {:induction false} TwoDistinctLinks<L>(p: string, propName: string, links: seq<Option<L>>,
                                               check: (string, L) -> (seq<FieldError>, Option<string>), a: string, b: string)
    requires |links| == 2 && a != b
    requires ItemErrors(p, propName, 0, links[0], check) == [] && ItemId(p, propName, 0, links[0], check) == Some(a)
    requires ItemErrors(p, propName, 1, links[1], check) == [] && ItemId(p, propName, 1, links[1], check) == Some(b)
    ensures DistinctIds(LinkIds(p, propName, links, 2, check))
    ensures AppLinksErrors(InLoop, p, propName, links, check) == [DuplicateError(p, propName)]
    ensures AppLinksErrors(AfterLoop, p, propName, links, check) == []
  {
    TwoLinksState(p, propName, links, check, a, b);
    assert |{a, b}| == 2;
    assert LinksFold(InLoop, p, propName, links, 1, check) == [DuplicateError(p, propName)];
    assert LinksFold(AfterLoop, p, propName, links, 1, check) == [];
  }

  /** The loop's variables over two non-null links with ids a and b. */
  lemma TwoLinksState<L>(p: string, propName: string, links: seq<Option<L>>,
                         check: (string, L) -> (seq<FieldError>, Option<string>), a: string, b: string)
    requires |links| == 2
    requires ItemId(p, propName, 0, links[0], check) == Some(a) && ItemId(p, propName, 1, links[1], check) == Some(b)
    ensures UniqueIds(p, propName, links, 1, check) == {a} && UniqueIds(p, propName, links, 2, check) == {a, b}
    ensures LinkCount(links, 1) == 2 && LinkCount(links, 2) == 2
    ensures LinkIds(p, propName, links, 2, check) == [Some(a), Some(b)]
  {
    assert links[0].Some? && links[1].Some?;
    assert LinkCount(links, 1) == 2;
    assert LinkIds(p, propName, links, 1, check) == [Some(a)];
  }

  /** As written, two distinct, well-formed Apple links are reported as duplicates; checked after
    * the loop, they are not. */
  lemma InLoopFlagsDistinctLinks()
    ensures DistinctIds(LinkIds("", "appleAppLinks", TwoAppleLinks, 2, AppleLinkCheck))
    ensures AppLinksErrors(InLoop, "", "appleAppLinks", TwoAppleLinks, AppleLinkCheck) == [DuplicateError("", "appleAppLinks")]
    ensures AppLinksErrors(AfterLoop, "", "appleAppLinks", TwoAppleLinks, AppleLinkCheck) == []
  {
    TwoAppleItems();
    assert "app.one"[4] != "app.two"[4];
    TwoDistinctLinks("", "appleAppLinks", TwoAppleLinks, AppleLinkCheck, "app.one", "app.two");
  }

  /** The errors of the settings the study must have. */
  function StudySettingErrors(p: string, s: Study, checks: StudyChecks): seq<FieldError> {
    IdentifierErrors(p, s.identifier, checks) +
    RequiredErrors(p, s, checks) +
    PasswordPolicyErrors(p, s.passwordPolicy, checks.fixedMaxLength) +
    LimitErrors(p, s)
  }

  /** The errors of the email templates, the profile attributes and the support address list. */
  function StudyTextErrors(p: string, s: Study, checks: StudyChecks): seq<FieldError> {
    TemplatesErrors(p, s) +
    AttributesErrors(p, s.userProfileAttributes, checks) +
    EmailErrors(p, "supportEmail", checks.commaListToOrderedSet(s.supportEmail), checks)
  }

  /** The errors of the other address lists, the data groups and the external id settings. */
  function StudyListErrors(p: string, s: Study, checks: StudyChecks): seq<FieldError> {
    EmailErrors(p, "technicalEmail", checks.commaListToOrderedSet(s.technicalEmail), checks) +
    EmailErrors(p, "consentNotificationEmail", checks.commaListToOrderedSet(s.consentNotificationEmail), checks) +
    DataGroupErrors(p, s.dataGroups, checks) +
    ExternalIdSettingErrors(p, s)
  }

  /** The errors of the Apple and Android app links, each list checked when present and not empty. */
  function StudyLinkErrors(dup: DuplicateCheck, p: string, s: Study): seq<FieldError> {
    (if s.appleAppLinks.Some? && s.appleAppLinks.value != [] then AppLinksErrors(dup, p, "appleAppLinks", s.appleAppLinks.value, AppleLinkCheck) else []) +
    (if s.androidAppLinks.Some? && s.androidAppLinks.value != [] then AppLinksErrors(dup, p, "androidAppLinks", s.androidAppLinks.value, AndroidLinkCheck) else [])
  }

  /** Everything validate records for a study, in the order it checks it. */
  function StudyErrors(dup: DuplicateCheck, p: string, s: Study, checks: StudyChecks): seq<FieldError> {
    StudySettingErrors(p, s, checks) + StudyTextErrors(p, s, checks) + StudyListErrors(p, s, checks) + StudyLinkErrors(dup, p, s)
  }

  method ValidateIdentifier(errors: Errors, identifier: string, checks: StudyChecks)
    modifies errors
    ensures errors.errors == old(errors.errors) + IdentifierErrors(old(errors.nestedPath), identifier, checks)
    ensures errors.nestedPath == old(errors.nestedPath) && errors.stack == old(errors.stack)
  {
    if IsBlank(identifier) {
      errors.RejectValue("identifier", "is required");
    } else {
      var p := errors.nestedPath;
      errors.RejectWhen(!checks.isBridgeIdentifier(identifier), "identifier", IDENTIFIER_PATTERN_MESSAGE);
      errors.RejectWhen(|identifier| < 2, "identifier", "must be at least 2 characters");
      AppendAssoc(old(errors.errors), RejectIf(!checks.isBridgeIdentifier(identifier), p, "identifier", IDENTIFIER_PATTERN_MESSAGE),
                  RejectIf(|identifier| < 2, p, "identifier", "must be at least 2 characters"));
    }
  }

  method ValidateRequiredNames(errors: Errors, s: Study, checks: StudyChecks)
    modifies errors
    ensures errors.errors == old(errors.errors) + RequiredNameErrors(old(errors.nestedPath), s, checks)
    ensures errors.nestedPath == old(errors.nestedPath) && errors.stack == old(errors.stack)
  {
    var p := errors.nestedPath;
    var badKey := exists k :: k in s.activityEventKeys && !checks.isBridgeIdentifier(k);
    ghost var keys := RejectIf(badKey, p, "activityEventKeys", IDENTIFIER_PATTERN_MESSAGE);
    ghost var name := RejectIf(IsBlank(s.name), p, "name", "is required");
    errors.RejectWhen(badKey, "activityEventKeys", IDENTIFIER_PATTERN_MESSAGE);
    errors.RejectWhen(IsBlank(s.name), "name", "is required");
    AppendAssoc(old(errors.errors), keys, name);
    errors.RejectWhen(IsBlank(s.sponsorName), "sponsorName", "is required");
    AppendAssoc(old(errors.errors), keys + name, RejectIf(IsBlank(s.sponsorName), p, "sponsorName", "is required"));
  }

  method ValidateRequiredContacts(errors: Errors, s: Study, checks: StudyChecks)
    modifies errors
    ensures errors.errors == old(errors.errors) + RequiredContactErrors(old(errors.nestedPath), s, checks)
    ensures errors.nestedPath == old(errors.nestedPath) && errors.stack == old(errors.stack)
  {
    var p := errors.nestedPath;
    ghost var support := RejectIf(IsBlank(s.supportEmail), p, "supportEmail", "is required");
    ghost var technical := RejectIf(IsBlank(s.technicalEmail), p, "technicalEmail", "is required");
    ghost var upload := if s.uploadMetadataFieldDefinitions != [] then checks.uploadFieldErrors(p, s.uploadMetadataFieldDefinitions) else [];
    errors.RejectWhen(IsBlank(s.supportEmail), "supportEmail", "is required");
    errors.RejectWhen(IsBlank(s.technicalEmail), "technicalEmail", "is required");
    AppendAssoc(old(errors.errors), support, technical);
    if s.uploadMetadataFieldDefinitions != [] {
      errors.RejectAll(checks.uploadFieldErrors(p, s.uploadMetadataFieldDefinitions));
    }
    AppendAssoc(old(errors.errors), support + technical, upload);
    errors.RejectWhen(IsBlank(s.consentNotificationEmail), "consentNotificationEmail", "is required");
    AppendAssoc(old(errors.errors), support + technical + upload,
                RejectIf(IsBlank(s.consentNotificationEmail), p, "consentNotificationEmail", "is required"));
  }

  method ValidateRequired(errors: Errors, s: Study, checks: StudyChecks)
    modifies errors
    ensures errors.errors == old(errors.errors) + RequiredErrors(old(errors.nestedPath), s, checks)
    ensures errors.nestedPath == old(errors.nestedPath) && errors.stack == old(errors.stack)
  {
    var p := errors.nestedPath;
    ValidateRequiredNames(errors, s, checks);
    ValidateRequiredContacts(errors, s, checks);
    AppendAssoc(old(errors.errors), RequiredNameErrors(p, s, checks), RequiredContactErrors(p, s, checks));
  }

  method ValidatePasswordPolicy(errors: Errors, policy: Option<PasswordPolicy>, max: int)
    modifies errors
    ensures errors.errors == old(errors.errors) + PasswordPolicyErrors(old(errors.nestedPath), policy, max)
    ensures errors.nestedPath == old(errors.nestedPath) && errors.stack == old(errors.stack)
  {
    if policy.None? {
      errors.RejectValue("passwordPolicy", "is required");
    } else {
      errors.PushNestedPath("passwordPolicy");
      if !InRange(policy.value.minLength, 2, max) {
        errors.RejectValue("minLength", "must be 2-" + IntToDecimal(max) + " characters");
      }
      errors.PopNestedPath();
    }
  }

  method ValidateLimits(errors: Errors, s: Study)
    modifies errors
    ensures errors.errors == old(errors.errors) + LimitErrors(old(errors.nestedPath), s)
    ensures errors.nestedPath == old(errors.nestedPath) && errors.stack == old(errors.stack)
  {
    var p := errors.nestedPath;
    errors.RejectWhen(s.minAgeOfConsent < 0, "minAgeOfConsent", "must be zero (no minimum age of consent) or higher");
    errors.RejectWhen(s.accountLimit < 0, "accountLimit", "must be zero (no limit set) or higher");
    AppendAssoc(old(errors.errors), RejectIf(s.minAgeOfConsent < 0, p, "minAgeOfConsent", "must be zero (no minimum age of consent) or higher"),
                RejectIf(s.accountLimit < 0, p, "accountLimit", "must be zero (no limit set) or higher"));
  }

  /** validateTemplate: a missing template is required; otherwise its subject and body, under the template's name. */
  method ValidateTemplate(errors: Errors, template: Option<EmailTemplate>, fieldName: string, requiredVariable: string)
    modifies errors
    ensures errors.errors == old(errors.errors) + TemplateErrors(old(errors.nestedPath), template, fieldName, requiredVariable)
    ensures errors.nestedPath == old(errors.nestedPath) && errors.stack == old(errors.stack)
  {
    if template.None? {
      errors.RejectValue(fieldName, "is required");
      return;
    }
    errors.PushNestedPath(fieldName);
    var q := errors.nestedPath;
    var t := template.value;
    errors.RejectWhen(IsBlank(t.subject), "subject", "is required");
    ghost var first := RejectIf(IsBlank(t.subject), q, "subject", "is required");
    ghost var second := if IsBlank(t.body) then [Rejection(q, "body", "is required")]
      else RejectIf(!Contains(t.body, requiredVariable), q, "body", "must contain the " + requiredVariable + " template variable");
    if IsBlank(t.body) {
      errors.RejectValue("body", "is required");
    } else {
      errors.RejectWhen(!Contains(t.body, requiredVariable), "body", "must contain the " + requiredVariable + " template variable");
    }
    AppendAssoc(old(errors.errors), first, second);
    errors.PopNestedPath();
  }

  method ValidateTemplates(errors: Errors, s: Study)
    modifies errors
    ensures errors.errors == old(errors.errors) + TemplatesErrors(old(errors.nestedPath), s)
    ensures errors.nestedPath == old(errors.nestedPath) && errors.stack == old(errors.stack)
  {
    ghost var p, e := errors.nestedPath, errors.errors;
    ghost var verify := TemplateErrors(p, s.verifyEmailTemplate, "verifyEmailTemplate", "${url}");
    ghost var reset := TemplateErrors(p, s.resetPasswordTemplate, "resetPasswordTemplate", "${url}");
    ghost var signIn := OptionalTemplateErrors(p, s.emailSignInTemplate, "emailSignInTemplate", "${token}");
    ghost var exists_ := OptionalTemplateErrors(p, s.accountExistsTemplate, "accountExistsTemplate", "${url}");
    ValidateTemplate(errors, s.verifyEmailTemplate, "verifyEmailTemplate", "${url}");
    ValidateTemplate(errors, s.resetPasswordTemplate, "resetPasswordTemplate", "${url}");
    AppendAssoc(e, verify, reset);
    ValidateOptionalTemplate(errors, s.emailSignInTemplate, "emailSignInTemplate", "${token}");
    AppendAssoc(e, verify + reset, signIn);
    ValidateOptionalTemplate(errors, s.accountExistsTemplate, "accountExistsTemplate", "${url}");
    AppendAssoc(e, verify + reset + signIn, exists_);
  }

  method ValidateOptionalTemplate(errors: Errors, template: Option<EmailTemplate>, fieldName: string, requiredVariable: string)
    modifies errors
    ensures errors.errors == old(errors.errors) + OptionalTemplateErrors(old(errors.nestedPath), template, fieldName, requiredVariable)
    ensures errors.nestedPath == old(errors.nestedPath) && errors.stack == old(errors.stack)
  {
    if template.Some? {
      ValidateTemplate(errors, template, fieldName, requiredVariable);
    } else {
      assert errors.errors + [] == errors.errors;
    }
  }

  /** One user profile attribute: not a reserved name, and a JavaScript identifier. */
  method ValidateAttribute(errors: Errors, attribute: string, checks: StudyChecks)
    modifies errors
    ensures errors.errors == old(errors.errors) + AttributeErrors(old(errors.nestedPath), attribute, checks)
    ensures errors.nestedPath == old(errors.nestedPath) && errors.stack == old(errors.stack)
  {
    var p := errors.nestedPath;
    var reserved := ReservedAttributeMessage(attribute);
    var badName := AttributeNameMessage(attribute);
    errors.RejectWhen(attribute in checks.reservedAttrNames, "userProfileAttributes", reserved);
    errors.RejectWhen(!checks.isJsIdentifier(attribute), "userProfileAttributes", badName);
    AppendAssoc(old(errors.errors), RejectIf(attribute in checks.reservedAttrNames, p, "userProfileAttributes", reserved),
                RejectIf(!checks.isJsIdentifier(attribute), p, "userProfileAttributes", badName));
  }

  lemma AttributesErrorsStep(p: string, attributes: seq<string>, i: nat, checks: StudyChecks)
    requires i < |attributes|
    ensures AttributesErrors(p, attributes[..i + 1], checks) ==
      AttributesErrors(p, attributes[..i], checks) + AttributeErrors(p, attributes[i], checks)
  {
    assert attributes[..i + 1][..i] == attributes[..i];
  }

  /** One pass of the loop over the user profile attributes. */
  method ValidateAttributePass(errors: Errors, attributes: seq<string>, i: nat, checks: StudyChecks, ghost e: seq<FieldError>)
    requires i < |attributes|
    requires errors.errors == e + AttributesErrors(errors.nestedPath, attributes[..i], checks)
    modifies errors
    ensures errors.errors == e + AttributesErrors(old(errors.nestedPath), attributes[..i + 1], checks)
    ensures errors.nestedPath == old(errors.nestedPath) && errors.stack == old(errors.stack)
  {
    ghost var p := errors.nestedPath;
    ghost var done := AttributesErrors(p, attributes[..i], checks);
    ValidateAttribute(errors, attributes[i], checks);
    AttributesErrorsStep(p, attributes, i, checks);
    AppendAssoc(e, done, AttributeErrors(p, attributes[i], checks));
  }

  /** The loop over the user profile attributes. */
  method ValidateAttributes(errors: Errors, attributes: seq<string>, checks: StudyChecks)
    modifies errors
    ensures errors.errors == old(errors.errors) + AttributesErrors(old(errors.nestedPath), attributes, checks)
    ensures errors.nestedPath == old(errors.nestedPath) && errors.stack == old(errors.stack)
  {
    ghost var p, e := errors.nestedPath, errors.errors;
    assert errors.errors == e + [];
    for i := 0 to |attributes|
      invariant errors.errors == e + AttributesErrors(p, attributes[..i], checks)
      invariant errors.nestedPath == p && errors.stack == old(errors.stack)
    {
      ValidateAttributePass(errors, attributes, i, checks, e);
    }
    assert attributes[..|attributes|] == attributes;
  }

  /** One pass of validateEmails' loop. */
  method ValidateEmailPass(errors: Errors, fieldName: string, emails: seq<string>, i: nat, checks: StudyChecks,
                           ghost e: seq<FieldError>)
    requires i < |emails|
    requires errors.errors == e + EmailErrors(errors.nestedPath, fieldName, emails[..i], checks)
    modifies errors
    ensures errors.errors == e + EmailErrors(old(errors.nestedPath), fieldName, emails[..i + 1], checks)
    ensures errors.nestedPath == old(errors.nestedPath) && errors.stack == old(errors.stack)
  {
    ghost var p := errors.nestedPath;
    ghost var done := EmailErrors(p, fieldName, emails[..i], checks);
    var message := fieldName + " '" + emails[i] + "' is not a valid email address";
    errors.RejectWhen(!checks.isValidEmail(emails[i]), fieldName, message);
    assert emails[..i + 1][..i] == emails[..i];
    AppendAssoc(e, done, RejectIf(!checks.isValidEmail(emails[i]), p, fieldName, message));
  }

  /** validateEmails: one error per invalid address in the comma-separated list. */
  method ValidateEmails(errors: Errors, value: string, fieldName: string, checks: StudyChecks)
    modifies errors
    ensures errors.errors == old(errors.errors) + EmailErrors(old(errors.nestedPath), fieldName, checks.commaListToOrderedSet(value), checks)
    ensures errors.nestedPath == old(errors.nestedPath) && errors.stack == old(errors.stack)
  {
    ghost var p, e := errors.nestedPath, errors.errors;
    var emails := checks.commaListToOrderedSet(value);
    assert errors.errors == e + [];
    for i := 0 to |emails|
      invariant errors.errors == e + EmailErrors(p, fieldName, emails[..i], checks)
      invariant errors.nestedPath == p && errors.stack == old(errors.stack)
    {
      ValidateEmailPass(errors, fieldName, emails, i, checks, e);
    }
    assert emails[..|emails|] == emails;
  }

  /** One pass of the loop over the data groups. */
  method ValidateDataGroupPass(errors: Errors, groups: seq<string>, i: nat, checks: StudyChecks, ghost e: seq<FieldError>)
    requires i < |groups|
    requires errors.errors == e + InvalidTagErrors(errors.nestedPath, groups[..i], checks)
    modifies errors
    ensures errors.errors == e + InvalidTagErrors(old(errors.nestedPath), groups[..i + 1], checks)
    ensures errors.nestedPath == old(errors.nestedPath) && errors.stack == old(errors.stack)
  {
    ghost var p := errors.nestedPath;
    ghost var done := InvalidTagErrors(p, groups[..i], checks);
    var message := InvalidTagMessage(groups[i]);
    errors.RejectWhen(!checks.isSynapseIdentifier(groups[i]), "dataGroups", message);
    assert groups[..i + 1][..i] == groups[..i];
    AppendAssoc(e, done, RejectIf(!checks.isSynapseIdentifier(groups[i]), p, "dataGroups", message));
  }

  /** validateDataGroupNamesAndFitForSynapseExport. */
  method ValidateDataGroupNames(errors: Errors, dataGroups: Option<seq<string>>, checks: StudyChecks)
    modifies errors
    ensures errors.errors == old(errors.errors) + DataGroupErrors(old(errors.nestedPath), dataGroups, checks)
    ensures errors.nestedPath == old(errors.nestedPath) && errors.stack == old(errors.stack)
  {
    if dataGroups.None? {
      return;
    }
    ghost var p, e := errors.nestedPath, errors.errors;
    var groups := dataGroups.value;
    assert errors.errors == e + [];
    for i := 0 to |groups|
      invariant errors.errors == e + InvalidTagErrors(p, groups[..i], checks)
      invariant errors.nestedPath == p && errors.stack == old(errors.stack)
    {
      ValidateDataGroupPass(errors, groups, i, checks, e);
    }
    assert groups[..|groups|] == groups;
    var ser := Join(groups, ", ");
    errors.RejectWhen(|ser| > MAX_SYNAPSE_LENGTH, "dataGroups", SynapseLengthMessage(ser));
    AppendAssoc(e, InvalidTagErrors(p, groups, checks), RejectIf(|ser| > MAX_SYNAPSE_LENGTH, p, "dataGroups", SynapseLengthMessage(ser)));
  }

  method ValidateExternalIdSettings(errors: Errors, s: Study)
    modifies errors
    ensures errors.errors == old(errors.errors) + ExternalIdSettingErrors(old(errors.nestedPath), s)
    ensures errors.nestedPath == old(errors.nestedPath) && errors.stack == old(errors.stack)
  {
    if !s.emailVerificationEnabled {
      var p := errors.nestedPath;
      errors.RejectWhen(!s.externalIdRequiredOnSignup, "externalIdRequiredOnSignup", "cannot be disabled if email verification has been disabled");
      errors.RejectWhen(!s.externalIdValidationEnabled, "externalIdValidationEnabled", "cannot be disabled if email verification has been disabled");
      AppendAssoc(old(errors.errors),
        RejectIf(!s.externalIdRequiredOnSignup, p, "externalIdRequiredOnSignup", "cannot be disabled if email verification has been disabled"),
        RejectIf(!s.externalIdValidationEnabled, p, "externalIdValidationEnabled", "cannot be disabled if email verification has been disabled"));
    }
  }

  /** The body of validateAppLinks' loop for link i, up to the duplicate check: returns the link's id and whether it counts. */
  method CheckLink<L>(errors: Errors, propName: string, i: nat, link: Option<L>,
                      check: (string, L) -> (seq<FieldError>, Option<string>)) returns (id: Option<string>)
    modifies errors
    ensures errors.errors == old(errors.errors) + ItemErrors(old(errors.nestedPath), propName, i, link, check)
    ensures id == ItemId(old(errors.nestedPath), propName, i, link, check)
    ensures errors.nestedPath == old(errors.nestedPath) && errors.stack == old(errors.stack)
  {
    errors.PushNestedPath(Indexed(propName, i));
    if link.None? {
      errors.RejectValue("", "cannot be null");
      id := None;
    } else {
      var result := check(errors.nestedPath, link.value);
      errors.RejectAll(result.0);
      id := result.1;
    }
    errors.PopNestedPath();
  }

  /** What pass i of validateAppLinks' loop records: the link's own errors, then, as written, the duplicate check. */
  function PassErrors<L>(rule: DuplicateCheck, p: string, propName: string, links: seq<Option<L>>, i: nat,
                         check: (string, L) -> (seq<FieldError>, Option<string>)): seq<FieldError>
    requires i < |links|
  {
    ItemErrors(p, propName, i, links[i], check) +
    (if rule.InLoop? && |UniqueIds(p, propName, links, i + 1, check)| < LinkCount(links, i + 1)
     then [DuplicateError(p, propName)] else [])
  }

  lemma LinksFoldStep<L>(rule: DuplicateCheck, p: string, propName: string, links: seq<Option<L>>, i: nat,
                         check: (string, L) -> (seq<FieldError>, Option<string>))
    requires i < |links|
    ensures LinksFold(rule, p, propName, links, i + 1, check) ==
            LinksFold(rule, p, propName, links, i, check) + PassErrors(rule, p, propName, links, i, check)
  {
    var before := LinksFold(rule, p, propName, links, i, check);
    var item := ItemErrors(p, propName, i, links[i], check);
    var dup: seq<FieldError> :=
      if rule.InLoop? && |UniqueIds(p, propName, links, i + 1, check)| < LinkCount(links, i + 1)
      then [DuplicateError(p, propName)] else [];
    assert dup == [] ==> before + item + dup == before + item;
    AppendAssoc(before, item, dup);
  }

  /** One pass of validateAppLinks' loop: check link i, add its id, count it, and, as written, check for duplicates. */
  method LinkPass<L>(dup: DuplicateCheck, errors: Errors, propName: string, links: seq<Option<L>>, i: nat,
                     check: (string, L) -> (seq<FieldError>, Option<string>), uniqueAppIds: set<string>, len: int,
                     ghost e: seq<FieldError>)
    returns (uniqueAppIds': set<string>, len': int)
    requires i < |links|
    requires errors.errors == e + LinksFold(dup, errors.nestedPath, propName, links, i, check)
    requires uniqueAppIds == UniqueIds(errors.nestedPath, propName, links, i, check) && len == LinkCount(links, i)
    modifies errors
    ensures errors.errors == e + LinksFold(dup, old(errors.nestedPath), propName, links, i + 1, check)
    ensures uniqueAppIds' == UniqueIds(old(errors.nestedPath), propName, links, i + 1, check)
    ensures len' == LinkCount(links, i + 1)
    ensures errors.nestedPath == old(errors.nestedPath) && errors.stack == old(errors.stack)
  {
    ghost var p := errors.nestedPath;
    ghost var before := LinksFold(dup, p, propName, links, i, check);
    ghost var item := ItemErrors(p, propName, i, links[i], check);
    var id := CheckLink(errors, propName, i, links[i], check);
    assert errors.errors == (e + before) + item;
    uniqueAppIds' := if id.Some? then uniqueAppIds + {id.value} else uniqueAppIds;
    len' := if links[i].None? then len - 1 else len;
    ghost var dupErrors: seq<FieldError> := [];
    if dup.InLoop? && |uniqueAppIds'| < len' {
      errors.RejectValue(propName, "cannot contain duplicate entries");
      dupErrors := [DuplicateError(p, propName)];
    }
    assert errors.errors == (e + before) + item + dupErrors;
    LinksFoldStep(dup, p, propName, links, i, check);
    assert PassErrors(dup, p, propName, links, i, check) == item + dupErrors;
    AppendAssoc(e + before, item, dupErrors);
    AppendAssoc(e, before, item + dupErrors);
  }

  /** validateAppLinks: each link is checked under `propName[i]`; `dup` says where the duplicate check runs. */
  method ValidateAppLinks<L>(dup: DuplicateCheck, errors: Errors, propName: string, links: seq<Option<L>>,
                             check: (string, L) -> (seq<FieldError>, Option<string>))
    modifies errors
    ensures errors.errors == old(errors.errors) + AppLinksErrors(dup, old(errors.nestedPath), propName, links, check)
    ensures errors.nestedPath == old(errors.nestedPath) && errors.stack == old(errors.stack)
  {
    ghost var p, e := errors.nestedPath, errors.errors;
    var uniqueAppIds, len := LinkPasses(dup, errors, propName, links, check);
    FinalCheck(dup, errors, propName, links, check, uniqueAppIds, len);
    AppendAssoc(e, LinksFold(dup, p, propName, links, |links|, check), FinalCheckErrors(dup, p, propName, links, check));
  }

  /** validateAppLinks' loop over the links. */
  method LinkPasses<L>(dup: DuplicateCheck, errors: Errors, propName: string, links: seq<Option<L>>,
                       check: (string, L) -> (seq<FieldError>, Option<string>))
    returns (uniqueAppIds: set<string>, len: int)
    modifies errors
    ensures errors.errors == old(errors.errors) + LinksFold(dup, old(errors.nestedPath), propName, links, |links|, check)
    ensures uniqueAppIds == UniqueIds(old(errors.nestedPath), propName, links, |links|, check)
    ensures len == LinkCount(links, |links|)
    ensures errors.nestedPath == old(errors.nestedPath) && errors.stack == old(errors.stack)
  {
    ghost var p, e := errors.nestedPath, errors.errors;
    uniqueAppIds := {};
    len := |links|;
    assert errors.errors == e + [];
    for i := 0 to |links|
      invariant errors.errors == e + LinksFold(dup, p, propName, links, i, check)
      invariant uniqueAppIds == UniqueIds(p, propName, links, i, check)
      invariant len == LinkCount(links, i)
      invariant errors.nestedPath == p && errors.stack == old(errors.stack)
    {
      uniqueAppIds, len := LinkPass(dup, errors, propName, links, i, check, uniqueAppIds, len, e);
    }
  }

  /** The duplicate check once after the loop, when that is where it runs. */
  method FinalCheck<L>(dup: DuplicateCheck, errors: Errors, propName: string, links: seq<Option<L>>,
                       check: (string, L) -> (seq<FieldError>, Option<string>), uniqueAppIds: set<string>, len: int)
    requires uniqueAppIds == UniqueIds(errors.nestedPath, propName, links, |links|, check) && len == LinkCount(links, |links|)
    modifies errors
    ensures errors.errors == old(errors.errors) + FinalCheckErrors(dup, old(errors.nestedPath), propName, links, check)
    ensures errors.nestedPath == old(errors.nestedPath) && errors.stack == old(errors.stack)
  {
    if dup.AfterLoop? && |uniqueAppIds| < len {
      errors.RejectValue(propName, "cannot contain duplicate entries");
    } else {
      assert errors.errors + [] == errors.errors;
    }
  }

  method ValidateSettings(study: Study, checks: StudyChecks, errors: Errors)
    modifies errors
    ensures errors.errors == old(errors.errors) + StudySettingErrors(old(errors.nestedPath), study, checks)
    ensures errors.nestedPath == old(errors.nestedPath) && errors.stack == old(errors.stack)
  {
    var p := errors.nestedPath;
    ghost var identifier := IdentifierErrors(p, study.identifier, checks);
    ghost var required := RequiredErrors(p, study, checks);
    ghost var policy := PasswordPolicyErrors(p, study.passwordPolicy, checks.fixedMaxLength);
    ValidateIdentifier(errors, study.identifier, checks);
    ValidateRequired(errors, study, checks);
    AppendAssoc(old(errors.errors), identifier, required);
    ValidatePasswordPolicy(errors, study.passwordPolicy, checks.fixedMaxLength);
    AppendAssoc(old(errors.errors), identifier + required, policy);
    ValidateLimits(errors, study);
    AppendAssoc(old(errors.errors), identifier + required + policy, LimitErrors(p, study));
  }

  method ValidateTexts(study: Study, checks: StudyChecks, errors: Errors)
    modifies errors
    ensures errors.errors == old(errors.errors) + StudyTextErrors(old(errors.nestedPath), study, checks)
    ensures errors.nestedPath == old(errors.nestedPath) && errors.stack == old(errors.stack)
  {
    var p := errors.nestedPath;
    ghost var templates := TemplatesErrors(p, study);
    ghost var attributes := AttributesErrors(p, study.userProfileAttributes, checks);
    ValidateTemplates(errors, study);
    ValidateAttributes(errors, study.userProfileAttributes, checks);
    AppendAssoc(old(errors.errors), templates, attributes);
    ValidateEmails(errors, study.supportEmail, "supportEmail", checks);
    AppendAssoc(old(errors.errors), templates + attributes,
                EmailErrors(p, "supportEmail", checks.commaListToOrderedSet(study.supportEmail), checks));
  }

  method ValidateLists(study: Study, checks: StudyChecks, errors: Errors)
    modifies errors
    ensures errors.errors == old(errors.errors) + StudyListErrors(old(errors.nestedPath), study, checks)
    ensures errors.nestedPath == old(errors.nestedPath) && errors.stack == old(errors.stack)
  {
    var p := errors.nestedPath;
    ghost var technical := EmailErrors(p, "technicalEmail", checks.commaListToOrderedSet(study.technicalEmail), checks);
    ghost var consent := EmailErrors(p, "consentNotificationEmail", checks.commaListToOrderedSet(study.consentNotificationEmail), checks);
    ghost var groups := DataGroupErrors(p, study.dataGroups, checks);
    ValidateEmails(errors, study.technicalEmail, "technicalEmail", checks);
    ValidateEmails(errors, study.consentNotificationEmail, "consentNotificationEmail", checks);
    AppendAssoc(old(errors.errors), technical, consent);
    ValidateDataGroupNames(errors, study.dataGroups, checks);
    AppendAssoc(old(errors.errors), technical + consent, groups);
    ValidateExternalIdSettings(errors, study);
    AppendAssoc(old(errors.errors), technical + consent + groups, ExternalIdSettingErrors(p, study));
  }

  /** An optional list of app links, validated when present and not empty. */
  method ValidateLinkList<L>(dup: DuplicateCheck, errors: Errors, propName: string, links: Option<seq<Option<L>>>,
                             check: (string, L) -> (seq<FieldError>, Option<string>))
    modifies errors
    ensures errors.errors == old(errors.errors) +
      (if links.Some? && links.value != [] then AppLinksErrors(dup, old(errors.nestedPath), propName, links.value, check) else [])
    ensures errors.nestedPath == old(errors.nestedPath) && errors.stack == old(errors.stack)
  {
    if links.Some? && links.value != [] {
      ValidateAppLinks(dup, errors, propName, links.value, check);
    }
  }

  method ValidateLinks(dup: DuplicateCheck, study: Study, errors: Errors)
    modifies errors
    ensures errors.errors == old(errors.errors) + StudyLinkErrors(dup, old(errors.nestedPath), study)
    ensures errors.nestedPath == old(errors.nestedPath) && errors.stack == old(errors.stack)
  {
    var p := errors.nestedPath;
    ghost var apple := if study.appleAppLinks.Some? && study.appleAppLinks.value != [] then AppLinksErrors(dup, p, "appleAppLinks", study.appleAppLinks.value, AppleLinkCheck) else [];
    ghost var android := if study.androidAppLinks.Some? && study.androidAppLinks.value != [] then AppLinksErrors(dup, p, "androidAppLinks", study.androidAppLinks.value, AndroidLinkCheck) else [];
    ValidateLinkList(dup, errors, "appleAppLinks", study.appleAppLinks, AppleLinkCheck);
    ValidateLinkList(dup, errors, "androidAppLinks", study.androidAppLinks, AndroidLinkCheck);
    AppendAssoc(old(errors.errors), apple, android);
  }

  /** validate: every group of checks in the source's order, with the duplicate-link check placed by `dup`. */
  method Validate(dup: DuplicateCheck, study: Study, checks: StudyChecks, errors: Errors)
    modifies errors
    ensures errors.errors == old(errors.errors) + StudyErrors(dup, old(errors.nestedPath), study, checks)
    ensures errors.nestedPath == old(errors.nestedPath) && errors.stack == old(errors.stack)
  {
    var p := errors.nestedPath;
    ghost var settings := StudySettingErrors(p, study, checks);
    ghost var texts := StudyTextErrors(p, study, checks);
    ghost var lists := StudyListErrors(p, study, checks);
    ValidateSettings(study, checks, errors);
    ValidateTexts(study, checks, errors);
    AppendAssoc(old(errors.errors), settings, texts);
    ValidateLists(study, checks, errors);
    AppendAssoc(old(errors.errors), settings + texts, lists);
    ValidateLinks(dup, study, errors);
    AppendAssoc(old(errors.errors), settings + texts + lists, StudyLinkErrors(dup, p, study));
  }
}

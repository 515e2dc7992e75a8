/**
 * AppConfigValidator: the required fields of an app config, its criteria (checked by the
 * criteria validator against the study's data groups) and the revision or createdOn that each
 * schema and survey reference must carry.
 */
module AppConfigValidator {
  import opened Wrappers
  import opened Text
  import opened Validation
  import opened Domain
  import opened Criteria
  import CriteriaUtils = Criteria

  datatype AppConfig = AppConfig(
    guid: Option<string>,
    configLabel: Option<string>,
    studyId: Option<string>,
    criteria: Option<Criteria>,
    schemaReferences: Option<seq<SchemaReference>>,
    surveyReferences: Option<seq<SurveyReference>>)

  /** The error for the i-th element of list `listName` lacking `field`. */
  function MissingError(p: string, listName: string, i: nat, field: string): FieldError {
    Rejection(PushedPath(p, Indexed(listName, i)), field, "is required")
  }

  /** One error per element of refs that lacks `field`, in list order, each under `listName[i]`. */
  function MissingErrors<R>(p: string, listName: string, field: string, refs: seq<R>, missing: R -> bool): (r: seq<FieldError>)
    ensures r == [] <==> forall i :: 0 <= i < |refs| ==> !missing(refs[i])
    ensures |r| <= |refs|
  {
    if refs == [] then []
    else
      var n := |refs| - 1;
      var init := refs[..n];
      assert forall i :: 0 <= i < n ==> init[i] == refs[i];
      MissingErrors(p, listName, field, init, missing) + (if missing(refs[n]) then [MissingError(p, listName, n, field)] else [])
  }

  /** Every element lacking the field is reported, under its own index. */
  lemma {:induction false} MissingErrorsReportEach<R>(p: string, listName: string, field: string, refs: seq<R>,
                                                      missing: R -> bool, i: nat)
    requires i < |refs| && missing(refs[i])
    ensures MissingError(p, listName, i, field) in MissingErrors(p, listName, field, refs, missing)
  {
    var n := |refs| - 1;
    if i < n {
      MissingErrorsReportEach(p, listName, field, refs[..n], missing, i);
    }
  }

  function MissingRevision(ref: SchemaReference): bool { ref.revision.None? }

  function MissingCreatedOn(ref: SurveyReference): bool { ref.createdOn.None? }

  function SchemaReferenceErrors(p: string, refs: Option<seq<SchemaReference>>): seq<FieldError> {
    if refs.None? then [] else MissingErrors(p, "schemaReferences", "revision", refs.value, MissingRevision)
  }

  function SurveyReferenceErrors(p: string, refs: Option<seq<SurveyReference>>): seq<FieldError> {
    if refs.None? then [] else MissingErrors(p, "surveyReferences", "createdOn", refs.value, MissingCreatedOn)
  }

  /** The guid, label and studyId checks; the guid only matters for a config that is not new. */
  function FieldErrors(p: string, isNew: bool, config: AppConfig): seq<FieldError> {
    RejectIf(!isNew && IsBlankOrNull(config.guid), p, "guid", "is required") +
    RejectIf(IsBlankOrNull(config.configLabel), p, "label", "is required") +
    RejectIf(IsBlankOrNull(config.studyId), p, "studyId", "is required")
  }

  /** Missing criteria are required; present criteria bring the criteria validator's errors. */
  function CriteriaSectionErrors(p: string, criteria: Option<Criteria>, dataGroups: seq<string>, osNames: seq<string>,
                                 errorKey: string -> string): seq<FieldError>
  {
    if criteria.None? then [Rejection(p, "criteria", "are required")]
    else CriteriaErrors(p, criteria.value, dataGroups, osNames, errorKey)
  }

  /** Everything validate records for an app config, in the order it checks it. */
  function AppConfigErrors(p: string, isNew: bool, dataGroups: seq<string>, osNames: seq<string>, errorKey: string -> string,
                           config: AppConfig): seq<FieldError>
  {
    FieldErrors(p, isNew, config) +
    CriteriaSectionErrors(p, config.criteria, dataGroups, osNames, errorKey) +
    SchemaReferenceErrors(p, config.schemaReferences) +
    SurveyReferenceErrors(p, config.surveyReferences)
  }

  /** What validate accepts: the ids and label present, well-formed criteria, and every reference pinned to a version. */
  predicate Acceptable(isNew: bool, dataGroups: seq<string>, config: AppConfig) {
    (isNew || !IsBlankOrNull(config.guid)) &&
    !IsBlankOrNull(config.configLabel) && !IsBlankOrNull(config.studyId) &&
    config.criteria.Some? && WellFormed(config.criteria.value, dataGroups) &&
    (config.schemaReferences.Some? ==> forall r :: r in config.schemaReferences.value ==> r.revision.Some?) &&
    (config.surveyReferences.Some? ==> forall r :: r in config.surveyReferences.value ==> r.createdOn.Some?)
  }

  lemma LengthOfSum(a: seq<FieldError>, b: seq<FieldError>, c: seq<FieldError>, d: seq<FieldError>)
    ensures a + b + c + d == [] <==> a == [] && b == [] && c == [] && d == []
  {
    assert |a + b + c + d| == |a| + |b| + |c| + |d|;
  }

  lemma FieldErrorsEmptyIff(p: string, isNew: bool, config: AppConfig)
    ensures FieldErrors(p, isNew, config) == [] <==>
      (isNew || !IsBlankOrNull(config.guid)) && !IsBlankOrNull(config.configLabel) && !IsBlankOrNull(config.studyId)
  {
    var f1 := RejectIf(!isNew && IsBlankOrNull(config.guid), p, "guid", "is required");
    var f2 := RejectIf(IsBlankOrNull(config.configLabel), p, "label", "is required");
    var f3 := RejectIf(IsBlankOrNull(config.studyId), p, "studyId", "is required");
    assert |f1 + f2 + f3| == |f1| + |f2| + |f3|;
  }

  lemma SchemaReferenceErrorsEmptyIff(p: string, refs: Option<seq<SchemaReference>>)
    ensures SchemaReferenceErrors(p, refs) == [] <==> (refs.Some? ==> forall r :: r in refs.value ==> r.revision.Some?)
  {
    if refs.Some? {
      var rs := refs.value;
      assert (forall i :: 0 <= i < |rs| ==> !MissingRevision(rs[i])) <==> (forall r :: r in rs ==> r.revision.Some?);
    }
  }

  lemma SurveyReferenceErrorsEmptyIff(p: string, refs: Option<seq<SurveyReference>>)
    ensures SurveyReferenceErrors(p, refs) == [] <==> (refs.Some? ==> forall r :: r in refs.value ==> r.createdOn.Some?)
  {
    if refs.Some? {
      var rs := refs.value;
      assert (forall i :: 0 <= i < |rs| ==> !MissingCreatedOn(rs[i])) <==> (forall r :: r in rs ==> r.createdOn.Some?);
    }
  }

  /** validate records nothing exactly when the config is acceptable. */
  lemma NoErrorsIffAcceptable(p: string, isNew: bool, dataGroups: seq<string>, osNames: seq<string>, errorKey: string -> string,
                              config: AppConfig)
    requires config.criteria.Some? ==> IsOsList(config.criteria.value, osNames)
    ensures AppConfigErrors(p, isNew, dataGroups, osNames, errorKey, config) == [] <==> Acceptable(isNew, dataGroups, config)
  {
    LengthOfSum(FieldErrors(p, isNew, config), CriteriaSectionErrors(p, config.criteria, dataGroups, osNames, errorKey),
                SchemaReferenceErrors(p, config.schemaReferences), SurveyReferenceErrors(p, config.surveyReferences));
    FieldErrorsEmptyIff(p, isNew, config);
    SchemaReferenceErrorsEmptyIff(p, config.schemaReferences);
    SurveyReferenceErrorsEmptyIff(p, config.surveyReferences);
    if config.criteria.Some? {
      CriteriaErrorsEmptyIff(p, config.criteria.value, dataGroups, osNames, errorKey);
    }
  }

  /** A new config is judged without its guid. */
  lemma NewConfigIgnoresGuid(p: string, dataGroups: seq<string>, osNames: seq<string>, errorKey: string -> string,
                             config: AppConfig, guid: Option<string>)
    ensures AppConfigErrors(p, true, dataGroups, osNames, errorKey, config) ==
            AppConfigErrors(p, true, dataGroups, osNames, errorKey, config.(guid := guid))
  {
  }

  /** The indexed loop over a reference list: an error under `listName[i]` for each element lacking `field`. */
  method RejectMissing<R>(errors: Errors, listName: string, field: string, refs: seq<R>, missing: R -> bool)
    modifies errors
    ensures errors.errors == old(errors.errors) + MissingErrors(old(errors.nestedPath), listName, field, refs, missing)
    ensures errors.nestedPath == old(errors.nestedPath) && errors.stack == old(errors.stack)
  {
    var p := errors.nestedPath;
    assert errors.errors == old(errors.errors) + [];
    for i := 0 to |refs|
      invariant errors.errors == old(errors.errors) + MissingErrors(p, listName, field, refs[..i], missing)
      invariant errors.nestedPath == p && errors.stack == old(errors.stack)
    {
      assert refs[..i + 1][..i] == refs[..i];
      if missing(refs[i]) {
        errors.PushNestedPath(Indexed(listName, i));
        errors.RejectValue(field, "is required");
        errors.PopNestedPath();
      }
    }
    assert refs[..|refs|] == refs;
  }

  method ValidateFields(errors: Errors, isNew: bool, config: AppConfig)
    modifies errors
    ensures errors.errors == old(errors.errors) + FieldErrors(old(errors.nestedPath), isNew, config)
    ensures errors.nestedPath == old(errors.nestedPath) && errors.stack == old(errors.stack)
  {
    var p := errors.nestedPath;
    ghost var guid := RejectIf(!isNew && IsBlankOrNull(config.guid), p, "guid", "is required");
    ghost var labelErrors := RejectIf(IsBlankOrNull(config.configLabel), p, "label", "is required");
    errors.RejectWhen(!isNew && IsBlankOrNull(config.guid), "guid", "is required");
    errors.RejectWhen(IsBlankOrNull(config.configLabel), "label", "is required");
    AppendAssoc(old(errors.errors), guid, labelErrors);
    errors.RejectWhen(IsBlankOrNull(config.studyId), "studyId", "is required");
    AppendAssoc(old(errors.errors), guid + labelErrors, RejectIf(IsBlankOrNull(config.studyId), p, "studyId", "is required"));
  }

  method ValidateSchemaReferences(errors: Errors, refs: Option<seq<SchemaReference>>)
    modifies errors
    ensures errors.errors == old(errors.errors) + SchemaReferenceErrors(old(errors.nestedPath), refs)
    ensures errors.nestedPath == old(errors.nestedPath) && errors.stack == old(errors.stack)
  {
    if refs.Some? {
      RejectMissing(errors, "schemaReferences", "revision", refs.value, MissingRevision);
    }
  }

  method ValidateSurveyReferences(errors: Errors, refs: Option<seq<SurveyReference>>)
    modifies errors
    ensures errors.errors == old(errors.errors) + SurveyReferenceErrors(old(errors.nestedPath), refs)
    ensures errors.nestedPath == old(errors.nestedPath) && errors.stack == old(errors.stack)
  {
    if refs.Some? {
      RejectMissing(errors, "surveyReferences", "createdOn", refs.value, MissingCreatedOn);
    }
  }

  method ValidateCriteria(errors: Errors, criteria: Option<Criteria>, dataGroups: seq<string>, osNames: seq<string>,
                          errorKey: string -> string)
    requires criteria.Some? ==> IsOsList(criteria.value, osNames)
    modifies errors
    ensures errors.errors == old(errors.errors) + CriteriaSectionErrors(old(errors.nestedPath), criteria, dataGroups, osNames, errorKey)
    ensures errors.nestedPath == old(errors.nestedPath) && errors.stack == old(errors.stack)
  {
    if criteria.None? {
      errors.RejectValue("criteria", "are required");
    } else {
      CriteriaUtils.Validate(criteria.value, dataGroups, osNames, errorKey, errors);
    }
  }

  /** validate, for a validator built with the study's data groups and the isNew flag. */
  method Validate(isNew: bool, dataGroups: seq<string>, osNames: seq<string>, errorKey: string -> string,
                  config: AppConfig, errors: Errors)
    requires config.criteria.Some? ==> IsOsList(config.criteria.value, osNames)
    modifies errors
    ensures errors.errors == old(errors.errors) + AppConfigErrors(old(errors.nestedPath), isNew, dataGroups, osNames, errorKey, config)
    ensures errors.nestedPath == old(errors.nestedPath) && errors.stack == old(errors.stack)
  {
    var p := errors.nestedPath;
    ghost var fields := FieldErrors(p, isNew, config);
    ghost var criteria := CriteriaSectionErrors(p, config.criteria, dataGroups, osNames, errorKey);
    ghost var schemas := SchemaReferenceErrors(p, config.schemaReferences);
    ValidateFields(errors, isNew, config);
    ValidateCriteria(errors, config.criteria, dataGroups, osNames, errorKey);
    AppendAssoc(old(errors.errors), fields, criteria);
    ValidateSchemaReferences(errors, config.schemaReferences);
    AppendAssoc(old(errors.errors), fields + criteria, schemas);
    ValidateSurveyReferences(errors, config.surveyReferences);
    AppendAssoc(old(errors.errors), fields + criteria + schemas, SurveyReferenceErrors(p, config.surveyReferences));
  }
}

/**
 * CompoundActivityDefinitionValidator: a compound activity must name a task the study declares
 * and must bundle at least one schema or one survey.
 */
module CompoundActivityValidator {
  import opened Wrappers
  import opened Text
  import opened Validation
  import opened Domain

  datatype CompoundActivityDefinition = CompoundActivityDefinition(
    taskId: Option<string>,
    schemaList: Option<seq<SchemaReference>>,
    surveyList: Option<seq<SurveyReference>>)

  /** What validate is handed: nothing, an object of another class, or a definition. */
  datatype Target = NullTarget | OtherType | Definition(definition: CompoundActivityDefinition)

  /** BridgeUtils.isEmpty: a null list counts as empty. */
  predicate IsEmpty<T>(list: Option<seq<T>>) {
    list.None? || list.value == []
  }

  function NotInEnumerationMessage(taskId: string, taskIds: seq<string>): string {
    taskId + " not in enumeration: " + Join(taskIds, ", ")
  }

  /** The task id check: blank is unspecified; otherwise it must be one of the study's task ids. */
  function TaskIdErrors(p: string, taskIds: seq<string>, taskId: Option<string>): (r: seq<FieldError>)
    ensures r == [] <==> taskId.Some? && taskId.value in taskIds && !IsBlank(taskId.value)
    ensures IsBlankOrNull(taskId) ==> r == [Rejection(p, "taskId", "must be specified")]
    ensures !IsBlankOrNull(taskId) && taskId.value !in taskIds ==>
      r == [Rejection(p, "taskId", NotInEnumerationMessage(taskId.value, taskIds))]
  {
    if IsBlankOrNull(taskId) then [Rejection(p, "taskId", "must be specified")]
    else if taskId.value !in taskIds then [Rejection(p, "taskId", NotInEnumerationMessage(taskId.value, taskIds))]
    else []
  }

  /** Everything validate records for the target, given the study's task ids. */
  function CompoundActivityErrors(p: string, taskIds: seq<string>, target: Target): (r: seq<FieldError>)
    ensures target.NullTarget? ==> r == [Rejection(p, "compoundActivityDefinition", "cannot be null")]
    ensures target.OtherType? ==> r == [Rejection(p, "compoundActivityDefinition", "is the wrong type")]
    ensures target.Definition? ==> |r| <= 2
  {
    match target
    case NullTarget => [Rejection(p, "compoundActivityDefinition", "cannot be null")]
    case OtherType => [Rejection(p, "compoundActivityDefinition", "is the wrong type")]
    case Definition(d) =>
      TaskIdErrors(p, taskIds, d.taskId) +
      (if IsEmpty(d.schemaList) && IsEmpty(d.surveyList)
       then [Rejection(p, "compoundActivityDefinition", "must have at least one schema or at least one survey")]
       else [])
  }

  /** A definition is accepted exactly when its task id is a declared, non-blank one and it bundles a schema or a survey. */
  lemma NoErrorsIffValid(p: string, taskIds: seq<string>, d: CompoundActivityDefinition)
    ensures CompoundActivityErrors(p, taskIds, Definition(d)) == [] <==>
      d.taskId.Some? && !IsBlank(d.taskId.value) && d.taskId.value in taskIds &&
      ((d.schemaList.Some? && d.schemaList.value != []) || (d.surveyList.Some? && d.surveyList.value != []))
  {
    var tasks := TaskIdErrors(p, taskIds, d.taskId);
    var bundle: seq<FieldError> := if IsEmpty(d.schemaList) && IsEmpty(d.surveyList)
      then [Rejection(p, "compoundActivityDefinition", "must have at least one schema or at least one survey")] else [];
    assert |tasks + bundle| == |tasks| + |bundle|;
  }
}

/**
 * GenericUploadFormatHandler: for an upload in the generic format, picks the schema named by
 * info.json (by survey when both survey fields are given, otherwise by item and revision), sets
 * the record's createdOn, and routes each schema field's value into the record's data or into
 * the attachments.
 */
module UploadHandler {
  import opened Wrappers
  import opened Text
  import opened Domain

  /** A JSON node. */
  datatype Json = JNull | JText(text: string) | JNumber(n: int) | JBool(b: bool) | JArray(items: seq<Json>)
                | JObject(fields: map<string, Json>)

  /** The info.json fields the handler reads, each absent when info.json lacks it (or is missing). */
  datatype InfoJson = InfoJson(
    surveyGuid: Option<string>,
    surveyCreatedOn: Option<string>,
    item: Option<string>,
    schemaRevision: Option<int>,
    createdOn: Option<string>,
    dataFilename: Option<string>)

  datatype Survey = Survey(identifier: Option<string>, schemaRevision: Option<int>)

  /** The (schema id, revision) the upload schema is fetched by. */
  datatype SchemaKey = SchemaKey(schemaId: string, revision: int)

  datatype UploadSchema = UploadSchema(schemaId: string, revision: int, fieldDefinitions: seq<UploadFieldDefinition>)

  /** A parsed date-time: epoch millis and the zone it was written in. */
  datatype DateTime = DateTime(millis: int, zone: string)

  type Bytes = seq<bv8>

  /** The services and library helpers the handler calls. */
  datatype UploadServices = UploadServices(
    toMillis: string -> int,
    getSurvey: (string, int) -> Survey,
    getSchema: (string, SchemaKey) -> UploadSchema,
    parseDateTime: string -> Option<DateTime>,
    now: int,
    flatten: map<string, Json> -> map<string, Json>,
    sanitizeJson: map<string, Json> -> map<string, Json>,
    sanitizeBytes: map<string, Bytes> -> map<string, Bytes>,
    addAttachment: (map<string, Bytes>, string, Bytes) -> map<string, Bytes>,
    serialize: Json -> Result<Bytes, string>,
    isAttachmentType: string -> bool)

  const NO_SCHEMA_MESSAGE := "info.json must contain either item and schemaRevision or surveyGuid and surveyCreatedOn"

  predicate IsNotBlank(s: Option<string>) {
    !IsBlankOrNull(s)
  }

  /** getUploadSchema's choice of schema: by survey when both survey fields are given, else by item and revision. */
  function SchemaKeyFor(info: InfoJson, toMillis: string -> int, getSurvey: (string, int) -> Survey): (r: Result<SchemaKey, BridgeError>)
    ensures IsNotBlank(info.surveyGuid) && IsNotBlank(info.surveyCreatedOn) ==>
      var survey := getSurvey(info.surveyGuid.value, toMillis(info.surveyCreatedOn.value));
      (r.Ok? <==> IsNotBlank(survey.identifier) && survey.schemaRevision.Some?) &&
      (r.Ok? ==> r.value == SchemaKey(survey.identifier.value, survey.schemaRevision.value))
    ensures !(IsNotBlank(info.surveyGuid) && IsNotBlank(info.surveyCreatedOn)) ==>
      (r.Ok? <==> IsNotBlank(info.item) && info.schemaRevision.Some?) &&
      (r.Ok? ==> r.value == SchemaKey(info.item.value, info.schemaRevision.value)) &&
      (r.Err? ==> r.error == UploadValidation(NO_SCHEMA_MESSAGE))
  {
    if IsNotBlank(info.surveyGuid) && IsNotBlank(info.surveyCreatedOn) then
      var millis := toMillis(info.surveyCreatedOn.value);
      var survey := getSurvey(info.surveyGuid.value, millis);
      if IsBlankOrNull(survey.identifier) || survey.schemaRevision.None? then
        Err(UploadValidation("Schema not found for survey " + info.surveyGuid.value + ":" + IntToDecimal(millis)))
      else Ok(SchemaKey(survey.identifier.value, survey.schemaRevision.value))
    else if IsNotBlank(info.item) && info.schemaRevision.Some? then
      Ok(SchemaKey(info.item.value, info.schemaRevision.value))
    else Err(UploadValidation(NO_SCHEMA_MESSAGE))
  }

  /** getUploadSchema: the schema the services hold under the chosen key. */
  function GetUploadSchema(studyId: string, info: InfoJson, services: UploadServices): (r: Result<UploadSchema, BridgeError>)
    ensures r.Ok? <==> SchemaKeyFor(info, services.toMillis, services.getSurvey).Ok?
    ensures r.Ok? ==> r.value == services.getSchema(studyId, SchemaKeyFor(info, services.toMillis, services.getSurvey).value)
  {
    var key := SchemaKeyFor(info, services.toMillis, services.getSurvey);
    if key.Err? then Err(key.error) else Ok(services.getSchema(studyId, key.value))
  }

  /** When info.json names a survey, its item and revision are not consulted. */
  lemma SurveyTakesPrecedence(info: InfoJson, item: Option<string>, revision: Option<int>,
                              toMillis: string -> int, getSurvey: (string, int) -> Survey)
    requires IsNotBlank(info.surveyGuid) && IsNotBlank(info.surveyCreatedOn)
    ensures SchemaKeyFor(info, toMillis, getSurvey) == SchemaKeyFor(info.(item := item, schemaRevision := revision), toMillis, getSurvey)
  {
  }

  /** The health data record the handler fills in. */
  class HealthDataRecord {
    var schemaId: Option<string>
    var schemaRevision: Option<int>
    var createdOn: Option<int>
    var createdOnTimeZone: Option<string>
    var data: map<string, Json>

    constructor (data: map<string, Json>)
      ensures this.data == data
      ensures schemaId.None? && schemaRevision.None? && createdOn.None? && createdOnTimeZone.None?
    {
      this.data := data;
      schemaId, schemaRevision, createdOn, createdOnTimeZone := None, None, None, None;
    }
  }

  /** The validation context: the messages collected so far and the attachments by field name. */
  class UploadValidationContext {
    var messages: seq<string>
    var attachments: map<string, Bytes>

    constructor ()
      ensures messages == [] && attachments == map[]
    {
      messages, attachments := [], map[];
    }

    method AddMessage(message: string)
      modifies this
      ensures messages == old(messages) + [message]
      ensures attachments == old(attachments)
    {
      messages := messages + [message];
    }
  }

  /** The createdOn parsed from info.json, if it is given and parses. */
  function ParsedCreatedOn(createdOn: Option<string>, parse: string -> Option<DateTime>): Option<DateTime> {
    if IsNotBlank(createdOn) then parse(createdOn.value) else None
  }

  /** The messages parseCreatedOnToRecord adds. */
  function CreatedOnMessages(createdOn: Option<string>, parse: string -> Option<DateTime>): (r: seq<string>)
    ensures r == [] <==> ParsedCreatedOn(createdOn, parse).Some?
    ensures r != [] ==> r[|r| - 1] == "Upload has no createdOn; using current time."
  {
    if ParsedCreatedOn(createdOn, parse).Some? then []
    else if IsNotBlank(createdOn) then ["Invalid date-time: " + createdOn.value, "Upload has no createdOn; using current time."]
    else ["Upload has no createdOn; using current time."]
  }

  /** parseCreatedOnToRecord: a parsable createdOn sets the record's time and zone; otherwise the current
    * time is used, no zone is set and the context says why. */
  method ParseCreatedOnToRecord(context: UploadValidationContext, createdOn: Option<string>, record: HealthDataRecord,
                                parse: string -> Option<DateTime>, now: int)
    modifies context, record
    ensures var parsed := ParsedCreatedOn(createdOn, parse);
      (parsed.Some? ==> record.createdOn == Some(parsed.value.millis) && record.createdOnTimeZone == Some(parsed.value.zone)) &&
      (parsed.None? ==> record.createdOn == Some(now) && record.createdOnTimeZone == old(record.createdOnTimeZone))
    ensures context.messages == old(context.messages) + CreatedOnMessages(createdOn, parse)
    ensures context.attachments == old(context.attachments)
    ensures record.data == old(record.data) && record.schemaId == old(record.schemaId) && record.schemaRevision == old(record.schemaRevision)
  {
    var parsed: Option<DateTime> := None;
    if IsNotBlank(createdOn) {
      parsed := parse(createdOn.value);
      if parsed.None? {
        context.AddMessage("Invalid date-time: " + createdOn.value);
      }
    }
    if parsed.Some? {
      record.createdOn := Some(parsed.value.millis);
      record.createdOnTimeZone := Some(parsed.value.zone);
    } else {
      context.AddMessage("Upload has no createdOn; using current time.");
      record.createdOn := Some(now);
    }
  }

  /** The loop over the data file's field names: each one is put over the flattened map. */
  method OverrideFields(flattened: map<string, Json>, fields: map<string, Json>) returns (r: map<string, Json>)
    ensures r.Keys == flattened.Keys + fields.Keys
    ensures forall k :: k in fields ==> r[k] == fields[k]
    ensures forall k :: k in flattened && k !in fields ==> r[k] == flattened[k]
  {
    r := flattened;
    var remaining := fields.Keys;
    while remaining != {}
      invariant remaining <= fields.Keys
      invariant r.Keys == flattened.Keys + (fields.Keys - remaining)
      invariant forall k :: k in fields && k !in remaining ==> r[k] == fields[k]
      invariant forall k :: k in flattened && (k !in fields || k in remaining) ==> r[k] == flattened[k]
      decreases remaining
    {
      var name :| name in remaining;
      r := r[name := fields[name]];
      remaining := remaining - {name};
    }
  }

  /** The fields of the data file, when info.json names one that the upload holds. */
  function DataFileFields(dataFilename: Option<string>, jsonDataMap: map<string, Json>): map<string, Json> {
    if IsNotBlank(dataFilename) && dataFilename.value in jsonDataMap && jsonDataMap[dataFilename.value].JObject?
    then jsonDataMap[dataFilename.value].fields
    else map[]
  }

  /** What the field loop changes: the record's data, the attachments and the messages. */
  datatype Routed = Routed(data: map<string, Json>, attachments: map<string, Bytes>, messages: seq<string>)

  /** copyJsonField: a null value is reported and skipped; an attachment-typed field is serialised into
    * the attachments; any other goes into the data. */
  function CopyJsonField(st: Routed, value: Json, def: UploadFieldDefinition, services: UploadServices): (r: Routed)
    ensures value.JNull? ==> r == st.(messages := st.messages + ["Field " + def.name + " is null."])
    ensures !value.JNull? && !services.isAttachmentType(def.fieldType) ==> r == st.(data := st.data[def.name := value])
    ensures !value.JNull? && services.isAttachmentType(def.fieldType) && services.serialize(value).Ok? ==>
      r == st.(attachments := services.addAttachment(st.attachments, def.name, services.serialize(value).value))
    ensures !value.JNull? && services.isAttachmentType(def.fieldType) && services.serialize(value).Err? ==>
      r == st.(messages := st.messages + ["Field " + def.name + " could not be converted from JSON: " + services.serialize(value).error])
    ensures services.isAttachmentType(def.fieldType) ==> r.data == st.data
  {
    if value.JNull? then st.(messages := st.messages + ["Field " + def.name + " is null."])
    else if services.isAttachmentType(def.fieldType) then
      match services.serialize(value)
      case Ok(bytes) => st.(attachments := services.addAttachment(st.attachments, def.name, bytes))
      case Err(m) => st.(messages := st.messages + ["Field " + def.name + " could not be converted from JSON: " + m])
    else st.(data := st.data[def.name := value])
  }

  /** One schema field: an unzipped file of that name wins over a JSON value of that name. */
  function RouteField(st: Routed, def: UploadFieldDefinition, unzipped: map<string, Bytes>, json: map<string, Json>,
                      services: UploadServices): Routed
  {
    if def.name in unzipped then st.(attachments := services.addAttachment(st.attachments, def.name, unzipped[def.name]))
    else if def.name in json then CopyJsonField(st, json[def.name], def, services)
    else st
  }

  /** The loop over the schema's field definitions, in order. */
  function RouteFields(st: Routed, defs: seq<UploadFieldDefinition>, unzipped: map<string, Bytes>, json: map<string, Json>,
                       services: UploadServices): Routed
  {
    if defs == [] then st
    else RouteField(RouteFields(st, defs[..|defs| - 1], unzipped, json, services), defs[|defs| - 1], unzipped, json, services)
  }

  /** A data entry the loop writes or changes comes from a schema field with no unzipped file of its
    * name, and holds that field's non-null JSON value. */
  predicate FromSchemaJson(k: string, value: Json, defs: seq<UploadFieldDefinition>, unzipped: map<string, Bytes>,
                           json: map<string, Json>)
  {
    (exists i :: 0 <= i < |defs| && defs[i].name == k) && k !in unzipped && k in json && value == json[k] && !value.JNull?
  }

  lemma {:induction false} OnlySchemaJsonReachesData(st: Routed, defs: seq<UploadFieldDefinition>, unzipped: map<string, Bytes>,
                                                     json: map<string, Json>, services: UploadServices)
    ensures var r := RouteFields(st, defs, unzipped, json, services);
      forall k :: k in r.data ==>
        (k in st.data && r.data[k] == st.data[k]) || FromSchemaJson(k, r.data[k], defs, unzipped, json)
  {
    if defs != [] {
      var init := defs[..|defs| - 1];
      var def := defs[|defs| - 1];
      OnlySchemaJsonReachesData(st, init, unzipped, json, services);
      var mid := RouteFields(st, init, unzipped, json, services);
      var r := RouteField(mid, def, unzipped, json, services);
      forall k | k in r.data
        ensures (k in st.data && r.data[k] == st.data[k]) || FromSchemaJson(k, r.data[k], defs, unzipped, json)
      {
        if k in mid.data && r.data[k] == mid.data[k] {
          if !(k in st.data && mid.data[k] == st.data[k]) {
            assert FromSchemaJson(k, mid.data[k], init, unzipped, json);
            var i :| 0 <= i < |init| && init[i].name == k;
            assert defs[i].name == k;
          }
        } else {
          assert defs[|defs| - 1].name == k;
        }
      }
    }
  }

  /** The loop only ever appends messages. */
  lemma {:induction false} RouteFieldsKeepsMessages(st: Routed, defs: seq<UploadFieldDefinition>, unzipped: map<string, Bytes>,
                                                    json: map<string, Json>, services: UploadServices)
    ensures st.messages <= RouteFields(st, defs, unzipped, json, services).messages
  {
    if defs != [] {
      RouteFieldsKeepsMessages(st, defs[..|defs| - 1], unzipped, json, services);
    }
  }

  /** copyJsonField, on the record and the context. */
  method CopyJsonFieldInto(context: UploadValidationContext, value: Json, def: UploadFieldDefinition, record: HealthDataRecord,
                           services: UploadServices)
    requires context as object != record
    modifies context, record
    ensures Routed(record.data, context.attachments, context.messages) ==
      CopyJsonField(Routed(old(record.data), old(context.attachments), old(context.messages)), value, def, services)
    ensures record.schemaId == old(record.schemaId) && record.schemaRevision == old(record.schemaRevision)
    ensures record.createdOn == old(record.createdOn) && record.createdOnTimeZone == old(record.createdOnTimeZone)
  {
    if value.JNull? {
      context.AddMessage("Field " + def.name + " is null.");
      return;
    }
    if services.isAttachmentType(def.fieldType) {
      var bytes := services.serialize(value);
      if bytes.Ok? {
        context.attachments := services.addAttachment(context.attachments, def.name, bytes.value);
      } else {
        context.AddMessage("Field " + def.name + " could not be converted from JSON: " + bytes.error);
      }
    } else {
      record.data := record.data[def.name := value];
    }
  }

  /** handleData: overrides the flattened JSON with the data file's fields, then routes each schema field. */
  method HandleData(context: UploadValidationContext, dataFilename: Option<string>, jsonDataMap: map<string, Json>,
                    unzippedDataMap: map<string, Bytes>, schema: UploadSchema, record: HealthDataRecord,
                    services: UploadServices)
    requires context as object != record
    modifies context, record
    ensures var json := services.sanitizeJson(services.flatten(jsonDataMap) + DataFileFields(dataFilename, jsonDataMap));
      Routed(record.data, context.attachments, context.messages) ==
        RouteFields(Routed(old(record.data), old(context.attachments), old(context.messages)), schema.fieldDefinitions,
                    services.sanitizeBytes(unzippedDataMap), json, services)
    ensures record.schemaId == old(record.schemaId) && record.schemaRevision == old(record.schemaRevision)
    ensures record.createdOn == old(record.createdOn) && record.createdOnTimeZone == old(record.createdOnTimeZone)
  {
    var flattened := services.flatten(jsonDataMap);
    var fields := DataFileFields(dataFilename, jsonDataMap);
    flattened := OverrideFields(flattened, fields);
    assert flattened == services.flatten(jsonDataMap) + fields;
    var json := services.sanitizeJson(flattened);
    var unzipped := services.sanitizeBytes(unzippedDataMap);
    var defs := schema.fieldDefinitions;
    ghost var start := Routed(record.data, context.attachments, context.messages);
    for i := 0 to |defs|
      invariant Routed(record.data, context.attachments, context.messages) == RouteFields(start, defs[..i], unzipped, json, services)
      invariant record.schemaId == old(record.schemaId) && record.schemaRevision == old(record.schemaRevision)
      invariant record.createdOn == old(record.createdOn) && record.createdOnTimeZone == old(record.createdOnTimeZone)
    {
      assert defs[..i + 1][..i] == defs[..i];
      var name := defs[i].name;
      if name in unzipped {
        context.attachments := services.addAttachment(context.attachments, name, unzipped[name]);
      } else if name in json {
        CopyJsonFieldInto(context, json[name], defs[i], record, services);
      }
    }
    assert defs[..|defs|] == defs;
  }

  /** handle: fetch the schema (an invalid info.json changes nothing), stamp it on the record, set createdOn, route the data. */
  method Handle(context: UploadValidationContext, record: HealthDataRecord, studyId: string, info: InfoJson,
                jsonDataMap: map<string, Json>, unzippedDataMap: map<string, Bytes>, services: UploadServices)
    returns (r: Result<UploadSchema, BridgeError>)
    requires context as object != record
    modifies context, record
    ensures r == GetUploadSchema(studyId, info, services)
    ensures r.Err? ==> (record.data == old(record.data) && record.schemaId == old(record.schemaId) &&
                        record.schemaRevision == old(record.schemaRevision) &&
                        record.createdOn == old(record.createdOn) && record.createdOnTimeZone == old(record.createdOnTimeZone) &&
                        context.messages == old(context.messages) && context.attachments == old(context.attachments))
    ensures r.Ok? ==> record.schemaId == Some(r.value.schemaId) && record.schemaRevision == Some(r.value.revision)
    ensures r.Ok? ==> var parsed := ParsedCreatedOn(info.createdOn, services.parseDateTime);
      record.createdOn == Some(if parsed.Some? then parsed.value.millis else services.now) &&
      record.createdOnTimeZone == (if parsed.Some? then Some(parsed.value.zone) else old(record.createdOnTimeZone))
    ensures r.Ok? ==>
      var json := services.sanitizeJson(services.flatten(jsonDataMap) + DataFileFields(info.dataFilename, jsonDataMap));
      var start := Routed(old(record.data), old(context.attachments),
                          old(context.messages) + CreatedOnMessages(info.createdOn, services.parseDateTime));
      Routed(record.data, context.attachments, context.messages) ==
        RouteFields(start, r.value.fieldDefinitions, services.sanitizeBytes(unzippedDataMap), json, services)
  {
    r := GetUploadSchema(studyId, info, services);
    if r.Err? {
      return;
    }
    var schema := r.value;
    record.schemaId := Some(schema.schemaId);
    record.schemaRevision := Some(schema.revision);
    ParseCreatedOnToRecord(context, info.createdOn, record, services.parseDateTime, services.now);
    HandleData(context, info.dataFilename, jsonDataMap, unzippedDataMap, schema, record, services);
  }
}

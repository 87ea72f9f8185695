/** FormAlgorithm: the JSON form of a form definition. Deserializing never
    takes the uuid or version from the JSON: the uuid is freshly generated
    (passed in here) and the version is always "1". */
module FormAlgorithm {
  import opened Wrappers
  import opened Model
  import opened Json

  const FORM_KEYS: set<string> := {"uuid", "name", "description", "version"}
  const INITIAL_VERSION := "1"

  /** What serialize writes. */
  function ToJson(form: Form): (json: JsonObject)
    ensures json.Keys == FORM_KEYS
  {
    map["uuid" := form.uuid, "name" := form.name, "description" := form.description, "version" := form.version]
  }

  /** What deserialize builds, given the freshly generated uuid. */
  function FromJson(json: JsonObject, freshUuid: string): (r: Result<Form, Error>)
    ensures r.Success? <==> "name" in json && "description" in json
    ensures r.Success? ==> r.value.uuid == freshUuid && r.value.version == INITIAL_VERSION
    ensures r.Success? ==> r.value.name == json["name"] && r.value.description == json["description"]
  {
    var name :- Read(json, "name");
    var description :- Read(json, "description");
    Success(Form(freshUuid, name, description, INITIAL_VERSION))
  }

  /** serialize: a fresh JSON object filled by four puts. */
  method Serialize(form: Form) returns (json: JsonObject)
    ensures json == ToJson(form)
  {
    json := map[];
    json := json["uuid" := form.uuid];
    json := json["name" := form.name];
    json := json["description" := form.description];
    json := json["version" := form.version];
  }

  /** deserialize: a fresh form filled by setters, the uuid first. */
  method Deserialize(json: JsonObject, freshUuid: string) returns (r: Result<Form, Error>)
    ensures r == FromJson(json, freshUuid)
  {
    var form := Form("", "", "", "");
    form := form.(uuid := freshUuid);
    var name :- Read(json, "name");
    form := form.(name := name);
    var description :- Read(json, "description");
    form := form.(description := description);
    form := form.(version := INITIAL_VERSION);
    r := Success(form);
  }

  /** The incoming uuid and version members make no difference. */
  lemma IgnoresUuidAndVersion(json: JsonObject, uuid: string, version: string, freshUuid: string)
    ensures FromJson(json["uuid" := uuid]["version" := version], freshUuid) == FromJson(json, freshUuid)
  {
  }

  /** A round trip keeps name and description, takes the fresh uuid and
      resets the version; it is the identity exactly on forms that already
      carry that uuid and version "1". */
  lemma RoundTrip(form: Form, freshUuid: string)
    ensures FromJson(ToJson(form), freshUuid) == Success(Form(freshUuid, form.name, form.description, INITIAL_VERSION))
    ensures FromJson(ToJson(form), freshUuid) == Success(form) <==> form.uuid == freshUuid && form.version == INITIAL_VERSION
  {
  }
}

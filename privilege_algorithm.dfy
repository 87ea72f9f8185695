/** PrivilegeAlgorithm: the JSON form of a privilege. Serialize writes the
    privilege's uuid under both "uuid" and "name", so the name does not
    survive a round trip. */
module PrivilegeAlgorithm {
  import opened Wrappers
  import opened Model
  import opened Json

  const PRIVILEGE_KEYS: set<string> := {"uuid", "name"}

  /** What serialize writes. */
  function ToJson(privilege: Privilege): (json: JsonObject)
    ensures json.Keys == PRIVILEGE_KEYS
  {
    map["uuid" := privilege.uuid, "name" := privilege.uuid]
  }

  /** What deserialize builds. */
  function FromJson(json: JsonObject): (r: Result<Privilege, Error>)
    ensures r.Success? <==> PRIVILEGE_KEYS <= json.Keys
  {
    var uuid :- Read(json, "uuid");
    var name :- Read(json, "name");
    Success(Privilege(uuid, name))
  }

  /** serialize: a fresh JSON object filled by two puts. */
  method Serialize(privilege: Privilege) returns (json: JsonObject)
    ensures json == ToJson(privilege)
  {
    json := map[];
    json := json["uuid" := privilege.uuid];
    json := json["name" := privilege.uuid];
  }

  /** deserialize: a fresh privilege filled by two setters. */
  method Deserialize(json: JsonObject) returns (r: Result<Privilege, Error>)
    ensures r == FromJson(json)
  {
    var privilege := Privilege("", "");
    var uuid :- Read(json, "uuid");
    privilege := privilege.(uuid := uuid);
    var name :- Read(json, "name");
    privilege := privilege.(name := name);
    r := Success(privilege);
  }

  /** Deserialize reads the uuid from "uuid" and the name from "name". */
  lemma ReadsByKey(json: JsonObject)
    ensures FromJson(json).Success? ==> FromJson(json).value == Privilege(json["uuid"], json["name"])
  {
  }

  /** A round trip keeps the uuid and replaces the name by the uuid; it is
      the identity only on privileges whose name equals their uuid. */
  lemma RoundTrip(privilege: Privilege)
    ensures FromJson(ToJson(privilege)).Success?
    ensures FromJson(ToJson(privilege)).value.uuid == privilege.uuid
    ensures FromJson(ToJson(privilege)).value.name == privilege.uuid
    ensures FromJson(ToJson(privilege)) == Success(privilege) <==> privilege.name == privilege.uuid
  {
  }
}

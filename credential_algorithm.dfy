/** CredentialAlgorithm: the JSON form of a stored credential, five members,
    the user's uuid under the literal member name "user.uuid". */
module CredentialAlgorithm {
  import opened Wrappers
  import opened Model
  import opened Json

  const CREDENTIAL_KEYS: set<string> := {"uuid", "user.uuid", "username", "password", "salt"}

  /** What serialize writes. */
  function ToJson(credential: Credential): (json: JsonObject)
    ensures json.Keys == CREDENTIAL_KEYS
  {
    map["uuid" := credential.uuid, "user.uuid" := credential.userUuid, "username" := credential.username,
        "password" := credential.password, "salt" := credential.salt]
  }

  /** What deserialize builds: the five members read in order, the first
      absent one an error. */
  function FromJson(json: JsonObject): (r: Result<Credential, Error>)
    ensures r.Success? <==> CREDENTIAL_KEYS <= json.Keys
  {
    var uuid :- Read(json, "uuid");
    var userUuid :- Read(json, "user.uuid");
    var username :- Read(json, "username");
    var password :- Read(json, "password");
    var salt :- Read(json, "salt");
    Success(Credential(uuid, userUuid, username, password, salt))
  }

  /** serialize: a fresh JSON object filled by five puts. */
  method Serialize(credential: Credential) returns (json: JsonObject)
    ensures json == ToJson(credential)
  {
    json := map[];
    json := json["uuid" := credential.uuid];
    json := json["user.uuid" := credential.userUuid];
    json := json["username" := credential.username];
    json := json["password" := credential.password];
    json := json["salt" := credential.salt];
  }

  /** deserialize: a fresh credential filled by five setters. */
  method Deserialize(json: JsonObject) returns (r: Result<Credential, Error>)
    ensures r == FromJson(json)
  {
    var credential := Credential("", "", "", "", "");
    var uuid :- Read(json, "uuid");
    credential := credential.(uuid := uuid);
    var userUuid :- Read(json, "user.uuid");
    credential := credential.(userUuid := userUuid);
    var username :- Read(json, "username");
    credential := credential.(username := username);
    var password :- Read(json, "password");
    credential := credential.(password := password);
    var salt :- Read(json, "salt");
    credential := credential.(salt := salt);
    r := Success(credential);
  }

  /** Each field travels under its own member name, in both directions. */
  lemma FieldsByKey(credential: Credential, json: JsonObject)
    ensures ToJson(credential)["uuid"] == credential.uuid
    ensures ToJson(credential)["user.uuid"] == credential.userUuid
    ensures ToJson(credential)["username"] == credential.username
    ensures ToJson(credential)["password"] == credential.password
    ensures ToJson(credential)["salt"] == credential.salt
    ensures FromJson(json).Success? ==>
      var c := FromJson(json).value;
      && c.uuid == json["uuid"] && c.userUuid == json["user.uuid"] && c.username == json["username"]
      && c.password == json["password"] && c.salt == json["salt"]
  {
  }

  /** deserialize(serialize(c)) is c. */
  lemma RoundTrip(credential: Credential)
    ensures FromJson(ToJson(credential)) == Success(credential)
  {
  }

  /** serialize(deserialize(j)) keeps exactly the five credential members of j. */
  lemma JsonRoundTrip(json: JsonObject)
    requires CREDENTIAL_KEYS <= json.Keys
    ensures FromJson(json).Success?
    ensures ToJson(FromJson(json).value) == map k | k in CREDENTIAL_KEYS :: json[k]
  {
  }
}

/** A JSON object as the algorithms see it: member names to string values.
    Parsing and printing JSON text are not part of this model. */
module Json {
  import opened Wrappers
  import opened Model

  type JsonObject = map<string, string>

  /** JsonPath.read(object, "$['key']"): the member's value; a member that is
      absent is an error. */
  function Read(json: JsonObject, key: string): (r: Result<string, Error>)
    ensures r.Success? <==> key in json
    ensures r.Success? ==> r.value == json[key]
    ensures r.Failure? ==> r.error == MissingKey(key)
  {
    if key in json then Success(json[key]) else Failure(MissingKey(key))
  }
}

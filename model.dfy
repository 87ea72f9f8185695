/** The records the data layer stores, reduced to the attributes the modelled
    code reads or writes, and the errors its operations raise. */
module Model {

  datatype Patient = Patient(uuid: string, name: string)

  datatype Observation = Observation(uuid: string, patientUuid: string)

  datatype Privilege = Privilege(uuid: string, name: string)

  datatype Form = Form(uuid: string, name: string, description: string, version: string)

  datatype Credential = Credential(uuid: string, userUuid: string, username: string, password: string, salt: string)

  datatype FormData = FormData(uuid: string, patientUuid: string, userUuid: string, status: string)

  /** IOError carries the exception message; MissingKey is a JSON path that
      names no member of the object being read. */
  datatype Error = IOError(message: string) | MissingKey(key: string)
}

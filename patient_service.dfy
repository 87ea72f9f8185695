/** PatientServiceImpl: patient download, storage and lookup over the
    patient data-access object. */
module PatientService {
  import opened Wrappers
  import opened Filters
  import opened SearchIndex
  import opened Model
  import opened Dao
  import C = Constants

  const AMBIGUOUS_PATIENT_MESSAGE := "Unable to uniquely identify a form record."

  /** The result rule of a download by uuid: no candidate is null, one
      candidate is that record, more than one is an I/O error. */
  function UniqueResult<R>(candidates: seq<R>, message: string): (r: Result<Option<R>, Error>)
    ensures r.Failure? <==> |candidates| > 1
    ensures r.Failure? ==> r.error == IOError(message)
    ensures r == Success(None) <==> candidates == []
    ensures r.Success? && r.value.Some? <==> |candidates| == 1
    ensures r.Success? && r.value.Some? ==> r.value.value == candidates[0]
  {
    if |candidates| > 1 then Failure(IOError(message))
    else if |candidates| == 0 then Success(None)
    else Success(Some(candidates[0]))
  }

  class PatientService {
    const patientDao: LocalDao<Patient>

    /** The patient index keys its documents by the patient's uuid. */
    ghost predicate Valid()
      reads patientDao.index
    {
      && patientDao.Valid()
      && forall p: Patient :: patientDao.index.uuidOf(p) == p.uuid
    }

    constructor (patientDao: LocalDao<Patient>)
      ensures this.patientDao == patientDao
    {
      this.patientDao := patientDao;
    }

    /** downloadPatientByUuid: downloads with {"uuid": uuid} from the uuid
        patient resource, then applies UniqueResult to what came back. */
    method DownloadPatientByUuid(uuid: string, response: Result<seq<Patient>, Error>)
      returns (r: Result<Option<Patient>, Error>)
      requires Valid()
      modifies patientDao.index
      ensures Valid()
      ensures patientDao.index.calls
           == old(patientDao.index.calls) + [Call.Download(map["uuid" := uuid], C.UUID_PATIENT_RESOURCE)]
      ensures response.Failure? ==> r == Failure(response.error)
      ensures response.Success? ==> r == UniqueResult(response.value, AMBIGUOUS_PATIENT_MESSAGE)
    {
      var parameters: map<string, string> := map[];
      parameters := parameters["uuid" := uuid];
      var patients :- patientDao.Download(parameters, C.UUID_PATIENT_RESOURCE, response);
      if |patients| > 1 {
        return Failure(IOError(AMBIGUOUS_PATIENT_MESSAGE));
      } else if |patients| == 0 {
        return Success(None);
      }
      return Success(Some(patients[0]));
    }

    /** downloadPatientsByName: downloads with {"q": name} from the search
        patient resource, discards what came back, and answers the name
        lookup against the index as the download left it. */
    method DownloadPatientsByName(name: string, response: Result<seq<Patient>, Error>)
      returns (r: Result<seq<Patient>, Error>)
      requires Valid()
      modifies patientDao.index
      ensures Valid()
      ensures patientDao.index.calls
           == old(patientDao.index.calls) + [Call.Download(map["q" := name], C.SEARCH_PATIENT_RESOURCE)]
      ensures response.Failure? ==> r == Failure(response.error)
      ensures response.Success? ==> r == Success(patientDao.index.GetObjects(NameFilters(name)))
    {
      var parameters: map<string, string> := map[];
      parameters := parameters["q" := name];
      var _ :- patientDao.Download(parameters, C.SEARCH_PATIENT_RESOURCE, response);
      var patients := GetPatientsByName(name);
      r := Success(patients);
    }

    method SavePatient(patient: Patient)
      requires Valid()
      modifies patientDao.index
      ensures Valid()
      ensures patientDao.index.docs == Upsert(old(patientDao.index.docs), patientDao.index.uuidOf, patient)
      ensures patientDao.index.calls == old(patientDao.index.calls) + [Call.CreateObject(patient, C.UUID_PATIENT_RESOURCE)]
      ensures GetPatientByUuid(patient.uuid) == Some(patient)
      ensures forall u :: u != patient.uuid ==> GetPatientByUuid(u) == old(GetPatientByUuid(u))
    {
      patientDao.Save(patient, C.UUID_PATIENT_RESOURCE);
    }

    method SavePatients(patients: seq<Patient>)
      requires Valid()
      modifies patientDao.index
      ensures Valid()
      ensures patientDao.index.docs == UpsertAll(old(patientDao.index.docs), patientDao.index.uuidOf, patients)
      ensures patientDao.index.calls == old(patientDao.index.calls) + CreateCalls(patients, C.UUID_PATIENT_RESOURCE)
    {
      patientDao.SaveAll(patients, C.UUID_PATIENT_RESOURCE);
    }

    method UpdatePatient(patient: Patient)
      requires Valid()
      modifies patientDao.index
      ensures Valid()
      ensures patientDao.index.docs == Upsert(old(patientDao.index.docs), patientDao.index.uuidOf, patient)
      ensures patientDao.index.calls == old(patientDao.index.calls) + [Call.UpdateObject(patient, C.UUID_PATIENT_RESOURCE)]
      ensures GetPatientByUuid(patient.uuid) == Some(patient)
      ensures forall u :: u != patient.uuid ==> GetPatientByUuid(u) == old(GetPatientByUuid(u))
    {
      patientDao.Update(patient, C.UUID_PATIENT_RESOURCE);
    }

    method UpdatePatients(patients: seq<Patient>)
      requires Valid()
      modifies patientDao.index
      ensures Valid()
      ensures patientDao.index.docs == UpsertAll(old(patientDao.index.docs), patientDao.index.uuidOf, patients)
      ensures patientDao.index.calls == old(patientDao.index.calls) + UpdateCalls(patients, C.UUID_PATIENT_RESOURCE)
    {
      patientDao.UpdateAll(patients, C.UUID_PATIENT_RESOURCE);
    }

    /** getPatientByUuid: the stored patient with that uuid, or null. */
    function GetPatientByUuid(uuid: string): (r: Option<Patient>)
      reads patientDao.index
      requires Valid()
      ensures r.Some? ==> r.value in patientDao.index.docs && r.value.uuid == uuid
      ensures r.None? <==> forall i :: 0 <= i < |patientDao.index.docs| ==> patientDao.index.docs[i].uuid != uuid
    {
      patientDao.GetByUuid(uuid)
    }

    /** getAllPatients: every stored patient. */
    method GetAllPatients() returns (rs: seq<Patient>)
      ensures rs == patientDao.index.docs
    {
      rs := patientDao.GetAll();
    }

    /** getPatientsByName: the DAO's partial-name lookup, unchanged. */
    method GetPatientsByName(name: string) returns (rs: seq<Patient>)
      ensures rs == patientDao.index.GetObjects(NameFilters(name))
      ensures IsEmpty(name) ==> rs == patientDao.index.docs
    {
      rs := patientDao.GetByName(name);
    }

    /** searchPatients: the DAO's free-text search, unchanged. */
    method SearchPatients(term: string) returns (rs: seq<Patient>)
      ensures rs == patientDao.index.GetObjects(patientDao.searchFilters([term]))
    {
      rs := patientDao.Search([term]);
    }

    /** deletePatient: invalidates the patient under the uuid patient resource. */
    method DeletePatient(patient: Patient)
      requires Valid()
      modifies patientDao.index
      ensures Valid()
      ensures patientDao.index.docs == Remove(old(patientDao.index.docs), patientDao.index.uuidOf, patient.uuid)
      ensures patientDao.index.calls == old(patientDao.index.calls) + [Call.Invalidate(patient, C.UUID_PATIENT_RESOURCE)]
      ensures GetPatientByUuid(patient.uuid) == None
      ensures forall u :: u != patient.uuid ==> GetPatientByUuid(u) == old(GetPatientByUuid(u))
    {
      patientDao.Delete(patient, C.UUID_PATIENT_RESOURCE);
    }
  }
}

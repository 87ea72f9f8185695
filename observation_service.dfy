/** ObservationServiceImpl: observation download and lookup; deletion is
    refused. */
module ObservationService {
  import opened Wrappers
  import opened SearchIndex
  import opened Model
  import opened Dao
  import C = Constants

  const DELETE_UNSUPPORTED_MESSAGE := "Delete operation is not supported for observation object!"

  class ObservationService {
    const observationDao: LocalDao<Observation>

    /** The observation index keys its documents by the observation's uuid. */
    ghost predicate Valid()
      reads observationDao.index
    {
      && observationDao.Valid()
      && forall o: Observation :: observationDao.index.uuidOf(o) == o.uuid
    }

    constructor (observationDao: LocalDao<Observation>)
      ensures this.observationDao == observationDao
    {
      this.observationDao := observationDao;
    }

    /** downloadObservationByUuid: one download of the uuid from the uuid
        observation resource; its records are not returned. */
    method DownloadObservationByUuid(uuid: string, response: Result<seq<Observation>, Error>)
      returns (r: Outcome<Error>)
      requires Valid()
      modifies observationDao.index
      ensures Valid()
      ensures observationDao.index.calls
           == old(observationDao.index.calls) + [Call.DownloadTerm(uuid, C.UUID_OBSERVATION_RESOURCE)]
      ensures r == if response.Failure? then Fail(response.error) else Pass
    {
      var downloaded := observationDao.DownloadTerm(uuid, C.UUID_OBSERVATION_RESOURCE, response);
      r := if downloaded.Failure? then Fail(downloaded.error) else Pass;
    }

    /** downloadObservationsByName: one download of the name from the search
        observation resource. */
    method DownloadObservationsByName(name: string, response: Result<seq<Observation>, Error>)
      returns (r: Outcome<Error>)
      requires Valid()
      modifies observationDao.index
      ensures Valid()
      ensures observationDao.index.calls
           == old(observationDao.index.calls) + [Call.DownloadTerm(name, C.SEARCH_OBSERVATION_RESOURCE)]
      ensures r == if response.Failure? then Fail(response.error) else Pass
    {
      var downloaded := observationDao.DownloadTerm(name, C.SEARCH_OBSERVATION_RESOURCE, response);
      r := if downloaded.Failure? then Fail(downloaded.error) else Pass;
    }

    /** getObservationByUuid: the DAO's lookup, unchanged. */
    function GetObservationByUuid(uuid: string): (r: Option<Observation>)
      reads observationDao.index
      requires Valid()
      ensures r.Some? ==> r.value in observationDao.index.docs && r.value.uuid == uuid
      ensures r.None? <==> forall i :: 0 <= i < |observationDao.index.docs| ==> observationDao.index.docs[i].uuid != uuid
    {
      observationDao.GetByUuid(uuid)
    }

    /** What the DAO's search(patientUuid, term) answers on the current index. */
    function SearchResult(patientUuid: string, term: string): (rs: seq<Observation>)
      reads observationDao.index
      ensures forall o :: o in rs ==> o in observationDao.index.docs
    {
      observationDao.index.GetObjects(observationDao.searchFilters([patientUuid, term]))
    }

    /** searchObservations: the DAO's search, unchanged. */
    method SearchObservations(patientUuid: string, term: string) returns (rs: seq<Observation>)
      ensures rs == SearchResult(patientUuid, term)
    {
      rs := observationDao.Search([patientUuid, term]);
    }

    /** getAllObservations: the same search with the empty term. */
    method GetAllObservations(patientUuid: string) returns (rs: seq<Observation>)
      ensures rs == SearchResult(patientUuid, "")
    {
      rs := observationDao.Search([patientUuid, ""]);
    }

    /** deleteObservation: always an I/O error, whatever the argument; nothing
        is changed (the method may modify nothing). */
    method DeleteObservation(observation: Observation) returns (r: Outcome<Error>)
      ensures r == Fail(IOError(DELETE_UNSUPPORTED_MESSAGE))
    {
      r := Fail(IOError(DELETE_UNSUPPORTED_MESSAGE));
    }
  }
}

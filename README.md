# muzima-api data layer, modelled in Dafny

This project models the part of the muzima-api client library that is its own logic rather than a call into the search library or the REST client:

- the filter lists the data-access objects (DAOs) build from optional search arguments;
- the generic local DAO operations (save, update, delete, lookup by uuid, partial-name lookup) as operations on an abstract local search index;
- the result rules of the patient and observation services;
- the JSON member mappings of the credential, form and privilege serialization algorithms;
- the connection `Configuration` held in a key-value registry.

The search index is external. It is modelled as the class `SearchIndex.Index`. The class holds the documents of one entity type in index order, with unique uuids. How a document matches a filter is an uninterpreted parameter (`matches`). How a paged query picks its window is another parameter (`pageWindow`). A ghost trace `calls` records every state-changing request the data layer sends to the index (createObject, updateObject, invalidate) and every download it asks of the REST layer. The read-only queries (getObject, getObjects) are functions and are not recorded. With the trace, contracts can say "exactly one `createObject` with this resource key, and nothing else".

Modules, one per source file or component:

- `Filters`: filter construction.
- `SearchIndex`: the abstract index and its lemmas.
- `Dao`: `LocalDaoImpl`, generic over the entity type. The same class also carries `SearchableDaoImpl`'s `getAll` and list overloads of save and update, `OpenmrsDaoImpl`'s `download`, and the entity DAO's `search`; how each of these is modelled is said under "## Left out".
- `FormDataDao`, `PrivilegeDao`: the two DAOs with their own filter building.
- `PatientService`, `ObservationService`: the two service classes.
- `CredentialAlgorithm`, `FormAlgorithm`, `PrivilegeAlgorithm`: the JSON mappings.
- `Config`: `Configuration`.
- `Json`, `Model`, `Constants`, `Wrappers`: support modules.

Java conventions and how they are modelled:

- A Java `null` result is `Option.None`.
- A thrown exception is `Result.Failure` or `Outcome.Fail`.
- A JSON object is a `map<string, string>`.
- A null `String` argument is modelled as `""`. `StringUtil.isEmpty` treats both alike, so the filter lists do not change. Elsewhere the two differ; see "## Left out".

## Model

| member | source | states |
|---|---|---|
| Filters.NameFilters | src/main/java/com/mclinic/api/dao/impl/LocalDaoImpl.java:87-91 | No filter for an empty name. Otherwise every filter is on "name", and its value extends the name with '*' right after it. |
| Filters.NameFiltersShape | src/main/java/com/mclinic/api/dao/impl/LocalDaoImpl.java:86-92 | The name filter list is empty iff the name is empty. Otherwise it is one filter on "name" whose value is the name followed by '*': the name is a prefix, '*' is last, and the length is the name's length plus one, with no escaping. |
| Filters.Active | src/main/java/com/muzima/api/dao/impl/FormDataDaoImpl.java:50-62 | General filter-builder rule: the result keeps exactly the candidate filters with a non-empty value, and no others. |
| Filters.ActiveAppend | src/main/java/com/muzima/api/dao/impl/FormDataDaoImpl.java:50-62 | The conditional adds work candidate by candidate: what is kept from a concatenation is what is kept from each part, in the same order. Together with ActiveSingle this fixes order and repeats. |
| Filters.ActiveSingle | src/main/java/com/muzima/api/dao/impl/FormDataDaoImpl.java:50-62 | One conditional add: a candidate is kept, verbatim, exactly when its value is non-empty. |
| Filters.FormDataFilters | src/main/java/com/muzima/api/dao/impl/FormDataDaoImpl.java:50-62 | At most three filters. Each has a non-empty value and is one of the (patientUuid, userUuid, status) candidates with its argument. |
| Filters.FormDataFiltersSpec | src/main/java/com/muzima/api/dao/impl/FormDataDaoImpl.java:50-62 | A patientUuid, userUuid or status filter is present iff that argument is non-empty. Each filter carries its argument verbatim, with no wildcard. Filters come in the order patientUuid, userUuid, status. Their number equals the number of non-empty arguments. |
| Filters.FormDataFiltersAreActive | src/main/java/com/muzima/api/dao/impl/FormDataDaoImpl.java:50-62 | The form-data filter list equals the general rule applied to the three (field, argument) candidates in argument order. |
| SearchIndex.Find | src/main/java/com/mclinic/api/dao/impl/LocalDaoImpl.java:74-76 | A lookup by uuid returns a stored document with that uuid, or null exactly when no stored document has it. |
| SearchIndex.Select | src/main/java/com/mclinic/api/dao/impl/LocalDaoImpl.java:92 | Every document an index query returns is stored and matches every filter. |
| SearchIndex.SelectComplete | src/main/java/com/mclinic/api/dao/impl/LocalDaoImpl.java:92 | Every stored document that matches every filter is returned. |
| SearchIndex.SelectWithoutFilters | src/main/java/com/mclinic/api/dao/impl/LocalDaoImpl.java:79-92 | An empty filter list returns every stored document, in index order. This is why an empty name returns all records. |
| SearchIndex.SelectKeepsUnique | src/main/java/com/mclinic/api/dao/impl/LocalDaoImpl.java:92 | A query result never holds two records with the same uuid. |
| SearchIndex.Window | src/main/java/com/muzima/api/dao/impl/FormDataDaoImpl.java:82 | A page is the run of at most `limit` results that starts at the offset, cut at the end of the result list. |
| SearchIndex.Upsert | src/main/java/com/mclinic/api/dao/impl/LocalDaoImpl.java:48-50 | Storing a record puts it in the index. At most one document is added, and every document afterwards is the record or was stored before. |
| SearchIndex.Remove | src/main/java/com/mclinic/api/dao/impl/LocalDaoImpl.java:104-106 | After a delete no document carries the uuid. Every document left was stored before, and every stored document under another uuid is kept. |
| SearchIndex.UpsertFind | src/main/java/com/mclinic/api/dao/impl/LocalDaoImpl.java:48-50 | After storing a record, its uuid finds that record, and every other uuid finds what it found before. |
| SearchIndex.UpsertUuids | src/main/java/com/mclinic/api/dao/impl/LocalDaoImpl.java:48-50 | After storing a record, every uuid present is the record's own or one that was already present. |
| SearchIndex.UpsertKeepsUnique | src/main/java/com/mclinic/api/dao/impl/LocalDaoImpl.java:48-50 | Storing a record keeps uuids unique within the entity type. |
| SearchIndex.RemoveFind | src/main/java/com/mclinic/api/dao/impl/LocalDaoImpl.java:104-106 | After a delete, the removed uuid is not found, and every other uuid finds what it found before. |
| SearchIndex.RemoveFrom | src/main/java/com/mclinic/api/dao/impl/LocalDaoImpl.java:104-106 | Every record left after a delete was stored before it. |
| SearchIndex.RemoveKeepsUnique | src/main/java/com/mclinic/api/dao/impl/LocalDaoImpl.java:104-106 | A delete keeps uuids unique. |
| SearchIndex.Index.GetObject | src/main/java/com/mclinic/api/dao/impl/LocalDaoImpl.java:75 | getObject returns the stored document with that uuid, or null iff none is stored. |
| SearchIndex.Index.GetObjects | src/main/java/com/mclinic/api/dao/impl/LocalDaoImpl.java:92 | getObjects returns only stored documents that match every filter. |
| SearchIndex.Index.GetObjectsPage | src/main/java/com/muzima/api/dao/impl/FormDataDaoImpl.java:82 | A paged getObjects returns at most the window's limit of results. They form a contiguous run of the unpaged result, starting at the window's offset. |
| SearchIndex.Index.CreateObject | src/main/java/com/mclinic/api/dao/impl/LocalDaoImpl.java:49 | createObject stores the record under its uuid, keeps uuids unique, and appends exactly one CreateObject call to the trace. |
| SearchIndex.Index.UpdateObject | src/main/java/com/mclinic/api/dao/impl/LocalDaoImpl.java:63 | updateObject replaces the record under its uuid (whole-record replace) and appends exactly one UpdateObject call. |
| SearchIndex.Index.Invalidate | src/main/java/com/mclinic/api/dao/impl/LocalDaoImpl.java:105 | invalidate removes the record's uuid and appends exactly one Invalidate call. |
| Dao.LocalDao.Save | src/main/java/com/mclinic/api/dao/impl/LocalDaoImpl.java:47-50 | save makes exactly one createObject with the given resource key and nothing else. Afterwards getByUuid of the record's uuid returns the record, and every other uuid is unaffected. |
| Dao.LocalDao.Update | src/main/java/com/mclinic/api/dao/impl/LocalDaoImpl.java:61-64 | update makes exactly one updateObject with the given resource key. Afterwards the uuid returns the new record, and every other uuid is unaffected. |
| Dao.LocalDao.GetByUuid | src/main/java/com/mclinic/api/dao/impl/LocalDaoImpl.java:74-76 | getByUuid returns the index's object for that uuid unchanged, or null iff none is stored. |
| Dao.LocalDao.GetByName | src/main/java/com/mclinic/api/dao/impl/LocalDaoImpl.java:86-93 | getByName returns the index's answer to the name filter list. For an empty name that answer is every stored record. For a non-empty name every result matches ("name", name + "*"). |
| Dao.LocalDao.Delete | src/main/java/com/mclinic/api/dao/impl/LocalDaoImpl.java:103-106 | delete makes exactly one invalidate with the given resource key. Afterwards the uuid is not found, and every other uuid is unaffected. |
| Dao.UpsertAll | src/main/java/com/muzima/api/service/impl/PatientServiceImpl.java:96-98 | Storing a list adds at most one document per record. Every document afterwards was stored before or is in the list, and the last record of the list is stored. |
| Dao.UpsertAllFindOthers | src/main/java/com/muzima/api/service/impl/PatientServiceImpl.java:96-98 | After storing a list, a uuid that no record of the list carries finds what it found before. |
| Dao.UpsertAllFindLast | src/main/java/com/muzima/api/service/impl/PatientServiceImpl.java:96-98 | After storing a list, each uuid finds the last record of the list that carries it. |
| Dao.CreateCalls | src/main/java/com/muzima/api/service/impl/PatientServiceImpl.java:96-98 | Saving a list issues one createObject per record, in list order, each with the same resource key. |
| Dao.UpdateCalls | src/main/java/com/muzima/api/service/impl/PatientServiceImpl.java:119-121 | Updating a list issues one updateObject per record, in list order, each with the same resource key. |
| Dao.LocalDao.SaveAll | src/main/java/com/muzima/api/service/impl/PatientServiceImpl.java:96-98 | Saving a list stores the records one after the other and issues exactly those createObject calls. |
| Dao.LocalDao.UpdateAll | src/main/java/com/muzima/api/service/impl/PatientServiceImpl.java:119-121 | Updating a list stores the records one after the other and issues exactly those updateObject calls. |
| Dao.LocalDao.GetAll | src/main/java/com/muzima/api/service/impl/PatientServiceImpl.java:162-164 | getAll returns every stored record, in index order. |
| Dao.LocalDao.Search | src/main/java/com/muzima/api/service/impl/PatientServiceImpl.java:192-194 | search returns the index's answer to the entity DAO's search filters, unchanged. |
| Dao.LocalDao.Download | src/main/java/com/muzima/api/service/impl/PatientServiceImpl.java:51 | download records exactly one Download call with the given parameters and resource key, and returns the fetched outcome. |
| Dao.LocalDao.DownloadTerm | src/main/java/com/mclinic/api/service/impl/ObservationServiceImpl.java:48 | The single-term download records exactly one DownloadTerm call and returns the fetched outcome. |
| FormDataDao.FormDataDao.GetAll | src/main/java/com/muzima/api/dao/impl/FormDataDaoImpl.java:48-64 | The three conditional adds build exactly the form-data filter list, and the index's answer to it is returned. With all arguments empty, every stored form data is returned. |
| FormDataDao.FormDataDao.GetAllPaged | src/main/java/com/muzima/api/dao/impl/FormDataDaoImpl.java:67-83 | The paged overload builds the identical filter list for the same three arguments. It only forwards page and pageSize to the index in addition. |
| PrivilegeDao.PrivilegeDao.GetByName | src/main/java/com/muzima/api/dao/impl/PrivilegeDaoImpl.java:47-54 | An empty name produces no filters and returns every stored privilege. A non-empty name produces the single filter ("name", name + "*"), which every result matches. The index's answer is returned unchanged. |
| PatientService.UniqueResult | src/main/java/com/muzima/api/service/impl/PatientServiceImpl.java:52-57 | More than one candidate is an I/O error with the source's message. No candidate gives null. Exactly one candidate gives that patient. Each case holds in both directions. |
| PatientService.PatientService.DownloadPatientByUuid | src/main/java/com/muzima/api/service/impl/PatientServiceImpl.java:47-58 | Downloads once with exactly {"uuid" ↦ uuid} from "Uuid Patient Resource", propagates a download failure, and otherwise applies UniqueResult to what was downloaded. |
| PatientService.PatientService.DownloadPatientsByName | src/main/java/com/muzima/api/service/impl/PatientServiceImpl.java:70-76 | Downloads once with exactly {"q" ↦ name} from "Search Patient Resource" and discards the download result. It returns the name lookup on the index as the download left it. |
| PatientService.PatientService.SavePatient | src/main/java/com/muzima/api/service/impl/PatientServiceImpl.java:85-87 | Saves under "Uuid Patient Resource". Afterwards getPatientByUuid returns the patient, and every other uuid is unaffected. |
| PatientService.PatientService.SavePatients | src/main/java/com/muzima/api/service/impl/PatientServiceImpl.java:96-98 | Saves each patient in order under "Uuid Patient Resource". |
| PatientService.PatientService.UpdatePatient | src/main/java/com/muzima/api/service/impl/PatientServiceImpl.java:107-109 | Updates under "Uuid Patient Resource". Afterwards getPatientByUuid returns the new patient. |
| PatientService.PatientService.UpdatePatients | src/main/java/com/muzima/api/service/impl/PatientServiceImpl.java:119-121 | Updates each patient in order under "Uuid Patient Resource". |
| PatientService.PatientService.GetPatientByUuid | src/main/java/com/muzima/api/service/impl/PatientServiceImpl.java:133-135 | Returns the DAO's lookup unchanged: a stored patient with that uuid, or null iff none is stored. |
| PatientService.PatientService.GetAllPatients | src/main/java/com/muzima/api/service/impl/PatientServiceImpl.java:162-164 | Returns the DAO's getAll unchanged: every stored patient. |
| PatientService.PatientService.GetPatientsByName | src/main/java/com/muzima/api/service/impl/PatientServiceImpl.java:177-179 | Returns the DAO's getByName unchanged, with the patient DAO's lookup taken to be LocalDaoImpl's. For an empty name that is every stored patient. |
| PatientService.PatientService.SearchPatients | src/main/java/com/muzima/api/service/impl/PatientServiceImpl.java:192-194 | Returns the DAO's search on the term unchanged. |
| PatientService.PatientService.DeletePatient | src/main/java/com/muzima/api/service/impl/PatientServiceImpl.java:205-207 | Invalidates under "Uuid Patient Resource". Afterwards the patient's uuid is not found, and every other uuid is unaffected. |
| ObservationService.ObservationService.DownloadObservationByUuid | src/main/java/com/mclinic/api/service/impl/ObservationServiceImpl.java:47-49 | Downloads once against "Uuid Observation Resource" and propagates only failure. |
| ObservationService.ObservationService.DownloadObservationsByName | src/main/java/com/mclinic/api/service/impl/ObservationServiceImpl.java:62-64 | Downloads once against "Search Observation Resource" and propagates only failure. |
| ObservationService.ObservationService.GetObservationByUuid | src/main/java/com/mclinic/api/service/impl/ObservationServiceImpl.java:78-80 | Returns the DAO lookup unchanged. The observation index is keyed by the observation's uuid field, so the result is a stored observation whose uuid is the argument, or null iff no stored observation has that uuid. |
| ObservationService.ObservationService.SearchObservations | src/main/java/com/mclinic/api/service/impl/ObservationServiceImpl.java:111-113 | Returns the DAO's search for (patientUuid, term) unchanged. |
| ObservationService.ObservationService.GetAllObservations | src/main/java/com/mclinic/api/service/impl/ObservationServiceImpl.java:94-96 | Returns exactly what searchObservations returns for the same patient and the empty term. |
| ObservationService.ObservationService.DeleteObservation | src/main/java/com/mclinic/api/service/impl/ObservationServiceImpl.java:125-127 | Always fails with an I/O error carrying the source's message, for every argument, and may change nothing. |
| Json.Read | src/main/java/com/muzima/api/model/algorithm/CredentialAlgorithm.java:38 | Reading a member succeeds iff the member is present, and then gives its value. An absent member is a MissingKey error for that member. |
| CredentialAlgorithm.ToJson | src/main/java/com/muzima/api/model/algorithm/CredentialAlgorithm.java:65-70 | serialize writes exactly the members uuid, user.uuid, username, password and salt. |
| CredentialAlgorithm.FromJson | src/main/java/com/muzima/api/model/algorithm/CredentialAlgorithm.java:33-54 | deserialize succeeds exactly when the JSON object holds all five members. |
| CredentialAlgorithm.Serialize | src/main/java/com/muzima/api/model/algorithm/CredentialAlgorithm.java:63-72 | The five successive puts produce exactly the serialized mapping. |
| CredentialAlgorithm.Deserialize | src/main/java/com/muzima/api/model/algorithm/CredentialAlgorithm.java:33-54 | The five successive reads and setters produce exactly the deserialized credential, or the error for the first absent member. |
| CredentialAlgorithm.FieldsByKey | src/main/java/com/muzima/api/model/algorithm/CredentialAlgorithm.java:37-51 | Each field travels under its own member in both directions. userUuid uses the literal member "user.uuid". |
| CredentialAlgorithm.RoundTrip | src/main/java/com/muzima/api/model/algorithm/CredentialAlgorithm.java:33-72 | deserialize(serialize(c)) equals c on all five fields. |
| CredentialAlgorithm.JsonRoundTrip | src/main/java/com/muzima/api/model/algorithm/CredentialAlgorithm.java:37-70 | For an object that holds the five members, serialize(deserialize(j)) returns exactly those five members with their values. |
| FormAlgorithm.ToJson | src/main/java/com/muzima/api/model/algorithm/FormAlgorithm.java:62-66 | serialize writes exactly the members uuid, name, description and version. |
| FormAlgorithm.FromJson | src/main/java/com/muzima/api/model/algorithm/FormAlgorithm.java:33-50 | deserialize succeeds iff name and description are present and copies them. The uuid is always the fresh one and the version is always "1", whatever the input. |
| FormAlgorithm.Serialize | src/main/java/com/muzima/api/model/algorithm/FormAlgorithm.java:59-68 | The four successive puts produce exactly the serialized mapping. |
| FormAlgorithm.Deserialize | src/main/java/com/muzima/api/model/algorithm/FormAlgorithm.java:33-50 | The fresh uuid, the two reads and the fixed version produce exactly the deserialized form. |
| FormAlgorithm.IgnoresUuidAndVersion | src/main/java/com/muzima/api/model/algorithm/FormAlgorithm.java:39-47 | The incoming uuid and version members have no effect on the deserialized form. |
| FormAlgorithm.RoundTrip | src/main/java/com/muzima/api/model/algorithm/FormAlgorithm.java:33-68 | A round trip keeps name and description, takes the fresh uuid and resets the version to "1". It is the identity exactly when the form already has that uuid and version "1". |
| PrivilegeAlgorithm.ToJson | src/main/java/com/muzima/api/model/algorithm/PrivilegeAlgorithm.java:56-58 | serialize writes exactly the two members uuid and name. |
| PrivilegeAlgorithm.FromJson | src/main/java/com/muzima/api/model/algorithm/PrivilegeAlgorithm.java:32-44 | deserialize succeeds exactly when both uuid and name are present. |
| PrivilegeAlgorithm.Serialize | src/main/java/com/muzima/api/model/algorithm/PrivilegeAlgorithm.java:53-60 | The two successive puts produce exactly the serialized mapping. Both puts take the privilege's uuid. |
| PrivilegeAlgorithm.Deserialize | src/main/java/com/muzima/api/model/algorithm/PrivilegeAlgorithm.java:32-44 | The two successive reads and setters produce exactly the deserialized privilege. |
| PrivilegeAlgorithm.ReadsByKey | src/main/java/com/muzima/api/model/algorithm/PrivilegeAlgorithm.java:37-41 | deserialize takes uuid from "uuid" and name from "name". |
| PrivilegeAlgorithm.RoundTrip | src/main/java/com/muzima/api/model/algorithm/PrivilegeAlgorithm.java:37-58 | A round trip keeps the uuid, but the name comes back as the uuid, not the original name. It is the identity only when name equals uuid. |
| Config.ConnectionKeysDistinct | src/main/java/com/muzima/util/Constants.java:40-44 | The server, username and password registry keys are pairwise distinct. |
| Config.Configuration.constructor | src/main/java/com/muzima/api/config/Configuration.java:29-31 | A new configuration starts from an empty registry, so all three settings are null. |
| Config.Configuration.EntryValue | src/main/java/com/muzima/api/config/Configuration.java:52 | registry.getEntryValue returns the value under the key, or null iff the key has no entry. |
| Config.Configuration.GetServer | src/main/java/com/muzima/api/config/Configuration.java:51-53 | getServer returns the entry under "connection.openmrs.server", or null iff there is none. |
| Config.Configuration.GetUsername | src/main/java/com/muzima/api/config/Configuration.java:69-71 | getUsername returns the entry under "connection.openmrs.username", or null iff there is none. |
| Config.Configuration.GetPassword | src/main/java/com/muzima/api/config/Configuration.java:87-89 | getPassword returns the entry under "connection.openmrs.password", or null iff there is none. |
| Config.Configuration.SetServer | src/main/java/com/muzima/api/config/Configuration.java:60-62 | After setServer(s), getServer() returns s, whatever was set before, so only the latest value is kept. Username and password are unchanged. |
| Config.Configuration.SetUsername | src/main/java/com/muzima/api/config/Configuration.java:78-80 | After setUsername(u), getUsername() returns u. Server and password are unchanged. |
| Config.Configuration.SetPassword | src/main/java/com/muzima/api/config/Configuration.java:96-98 | After setPassword(p), getPassword() returns p. Server and username are unchanged. |
| Config.Configuration.Configure | src/main/java/com/muzima/api/config/Configuration.java:40-44 | configure(u, p, s) leaves username u, password p and server s. No other registry entry changes. |

## Left out

- Query semantics of the search index (Lucene filter and wildcard matching, relevance order). `matches` is uninterpreted, so the prefix-match reading of `name + "*"` is not claimed. Results come back in index order.
- Paging policy of the index. `pageWindow` maps page and pageSize to an offset and a limit and is left open.
- I/O and query-parse failures of the index itself. Index operations always succeed in the model. A `createObject` for a uuid already stored replaces that record. An `invalidate` of a uuid that is not stored changes nothing.
- Dao.LocalDao.Download: the REST layer and `OpenmrsDaoImpl.download` are not part of this model. The parsed response is a parameter. The contract fixes only the recorded call and the returned outcome, not which downloaded records reach the index or when. So nothing is claimed about records persisted before the ambiguity error of `downloadPatientByUuid`.
- Dao.LocalDao.DownloadTerm: the same, for the single-term download used by the observation service.
- PatientService.PatientService.DownloadPatientByUuid: the index after the call is not described, for the reason above.
- `SearchableDaoImpl` is not part of this model. Its list overloads of save and update are modelled as one save or update per record, in list order. Its `getAll` is modelled as a query with no filters.
- The entity DAOs' own `search` is not part of this model. Its filter list is the parameter `searchFilters`.
- PatientService.PatientService.GetPatientsByName: the service calls `com.muzima.api.dao.PatientDao`, and the observation service calls `com.mclinic.api.dao.ObservationDao`. Neither implementation is part of this model, and an entity DAO may override an inherited operation, as PrivilegeDaoImpl does for `getByName`. Both DAOs are modelled by LocalDaoImpl's operations. So the patient name filter ("name", name + "*") is LocalDaoImpl's and is not established for the patient DAO; the same holds for `getByUuid`, save, update and delete of both DAOs.
- PatientService.PatientService.DownloadPatientsByName: its name lookup after the download is LocalDaoImpl's `getByName`, for the reason above.
- `getPatientByIdentifier`: the implementation of `PatientDao.getByIdentifier` is not part of this model, so this service method is not modelled.
- `ObservationServiceImpl` takes its resource keys from `com.mclinic.util.Constants`, which is not part of this model. The values used are those of the same-named constants in src/main/java/com/muzima/util/Constants.java.
- Null arguments are modelled as `""`. This is exact for the filter lists, which treat both as empty, but not elsewhere. After `setServer(null)`, Java's `getServer()` returns null and the model returns `Some("")`; the same holds for the other two settings. A null name or uuid passed to a download becomes the parameter value `""` rather than null. Null field values and JSON `null` members are not representable.
- JSON text encoding and parsing are not modelled. Reading an absent member is modelled as a `MissingKey` error, because the behaviour of JsonPath for an absent member is external.
- `UUID.randomUUID()` in `FormAlgorithm` is nondeterministic. The fresh uuid is a parameter.
- The registry behind `Configuration` (`DefaultRegistry`) is modelled as a map with put and get.
- The attributes of Patient and Observation beyond those the modelled code reads are not modelled.
- Dependency-injection wiring, the interface-only DAO and service files, `FormTemplate` (a plain record) and the `Patient` summary test are not modelled.
- `deleteObservation` throws an `IOException`; the model returns `IOError` with the code's message.

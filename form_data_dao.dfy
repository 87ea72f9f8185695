/** FormDataDaoImpl: form data looked up by optional patient, user and status. */
module FormDataDao {
  import opened Filters
  import opened SearchIndex
  import opened Model

  class FormDataDao {
    const index: Index<FormData>

    constructor (index: Index<FormData>)
      ensures this.index == index
    {
      this.index := index;
    }

    /** getAll(patientUuid, userUuid, status): three conditional adds build
        the exact-match filters, then the index answers them. With all three
        arguments empty every stored form data is returned. */
    method GetAll(patientUuid: string, userUuid: string, status: string) returns (rs: seq<FormData>)
      ensures rs == index.GetObjects(FormDataFilters(patientUuid, userUuid, status))
      ensures IsEmpty(patientUuid) && IsEmpty(userUuid) && IsEmpty(status) ==> rs == index.docs
    {
      var filters: seq<Filter> := [];
      if !IsEmpty(patientUuid) {
        filters := filters + [Filter("patientUuid", patientUuid)];
      }
      if !IsEmpty(userUuid) {
        filters := filters + [Filter("userUuid", userUuid)];
      }
      if !IsEmpty(status) {
        filters := filters + [Filter("status", status)];
      }
      assert filters == FormDataFilters(patientUuid, userUuid, status);
      rs := index.GetObjects(filters);
      if filters == [] {
        SelectWithoutFilters(index.docs, index.matches);
      }
    }

    /** getAll(patientUuid, userUuid, status, page, pageSize): the same filter
        list, with page and pageSize forwarded to the index; the result is a
        contiguous run of the unpaged result. */
    method GetAllPaged(patientUuid: string, userUuid: string, status: string, page: int, pageSize: int)
      returns (rs: seq<FormData>)
      ensures rs == index.GetObjectsPage(FormDataFilters(patientUuid, userUuid, status), page, pageSize)
    {
      var filters: seq<Filter> := [];
      if !IsEmpty(patientUuid) {
        filters := filters + [Filter("patientUuid", patientUuid)];
      }
      if !IsEmpty(userUuid) {
        filters := filters + [Filter("userUuid", userUuid)];
      }
      if !IsEmpty(status) {
        filters := filters + [Filter("status", status)];
      }
      assert filters == FormDataFilters(patientUuid, userUuid, status);
      rs := index.GetObjectsPage(filters, page, pageSize);
    }
  }
}

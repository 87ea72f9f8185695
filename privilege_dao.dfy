/** PrivilegeDaoImpl: privileges looked up by partial name. */
module PrivilegeDao {
  import opened Filters
  import opened SearchIndex
  import opened Model

  class PrivilegeDao {
    const index: Index<Privilege>

    constructor (index: Index<Privilege>)
      ensures this.index == index
    {
      this.index := index;
    }

    /** getByName: one conditional add of the wildcarded name filter; the
        index's answer is returned unchanged. An empty name returns every
        stored privilege. */
    method GetByName(name: string) returns (rs: seq<Privilege>)
      ensures rs == index.GetObjects(NameFilters(name))
      ensures IsEmpty(name) ==> rs == index.docs
      ensures !IsEmpty(name) ==> |NameFilters(name)| == 1 && forall r :: r in rs ==> r in index.docs && index.matches(r, NameFilters(name)[0])
    {
      var filters: seq<Filter> := [];
      if !IsEmpty(name) {
        filters := filters + [Filter("name", name + "*")];
      }
      assert filters == NameFilters(name);
      rs := index.GetObjects(filters);
      if IsEmpty(name) {
        SelectWithoutFilters(index.docs, index.matches);
      } else {
        forall r | r in rs ensures index.matches(r, filters[0]) {
          assert MatchesAll(r, filters, index.matches);
        }
      }
    }
  }
}

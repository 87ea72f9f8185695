/** The generic data-access object over one entity type: whole-record save,
    update and delete through the search index, lookup by uuid, partial-name
    lookup, and the remote download that feeds the index. */
module Dao {
  import opened Wrappers
  import opened Filters
  import opened SearchIndex
  import opened Model

  /** Storing a list of records one after the other, in list order. */
  function UpsertAll<R(==)>(docs: seq<R>, uuidOf: R -> string, objs: seq<R>): (r: seq<R>)
    ensures |docs| <= |r| <= |docs| + |objs|
    ensures forall d :: d in r ==> d in docs || d in objs
    ensures objs != [] ==> objs[|objs| - 1] in r
  {
    if objs == [] then docs
    else Upsert(UpsertAll(docs, uuidOf, objs[..|objs| - 1]), uuidOf, objs[|objs| - 1])
  }

  /** After storing a list, a uuid that no record of the list carries finds
      what it found before. */
  lemma {:induction false} UpsertAllFindOthers<R>(docs: seq<R>, uuidOf: R -> string, objs: seq<R>, u: string)
    requires forall i :: 0 <= i < |objs| ==> uuidOf(objs[i]) != u
    ensures Find(UpsertAll(docs, uuidOf, objs), uuidOf, u) == Find(docs, uuidOf, u)
  {
    if objs != [] {
      var init, last := objs[..|objs| - 1], objs[|objs| - 1];
      UpsertAllFindOthers(docs, uuidOf, init, u);
      UpsertFind(UpsertAll(docs, uuidOf, init), uuidOf, last, u);
    }
  }

  /** After storing a list, each uuid finds the last record of the list that
      carries it: later records win. */
  lemma {:induction false} UpsertAllFindLast<R>(docs: seq<R>, uuidOf: R -> string, objs: seq<R>, i: int)
    requires 0 <= i < |objs|
    requires forall j :: i < j < |objs| ==> uuidOf(objs[j]) != uuidOf(objs[i])
    ensures Find(UpsertAll(docs, uuidOf, objs), uuidOf, uuidOf(objs[i])) == Some(objs[i])
  {
    var init, last := objs[..|objs| - 1], objs[|objs| - 1];
    UpsertFind(UpsertAll(docs, uuidOf, init), uuidOf, last, uuidOf(objs[i]));
    if i < |objs| - 1 {
      assert init[i] == objs[i];
      assert forall j :: i < j < |init| ==> init[j] == objs[j];
      UpsertAllFindLast(docs, uuidOf, init, i);
    }
  }

  function CreateCalls<R>(objs: seq<R>, resource: string): (cs: seq<Call<R>>)
    ensures |cs| == |objs|
    ensures forall i :: 0 <= i < |objs| ==> cs[i] == Call.CreateObject(objs[i], resource)
  {
    if objs == [] then [] else CreateCalls(objs[..|objs| - 1], resource) + [Call.CreateObject(objs[|objs| - 1], resource)]
  }

  function UpdateCalls<R>(objs: seq<R>, resource: string): (cs: seq<Call<R>>)
    ensures |cs| == |objs|
    ensures forall i :: 0 <= i < |objs| ==> cs[i] == Call.UpdateObject(objs[i], resource)
  {
    if objs == [] then [] else UpdateCalls(objs[..|objs| - 1], resource) + [Call.UpdateObject(objs[|objs| - 1], resource)]
  }

  /** LocalDaoImpl over one entity type. `searchFilters` stands for the
      entity DAO's own free-text search, whose filter construction is not
      part of this model. */
  class LocalDao<R(==)> {
    const index: Index<R>
    const searchFilters: seq<string> -> seq<Filter>

    ghost predicate Valid()
      reads index
    {
      index.Valid()
    }

    constructor (index: Index<R>, searchFilters: seq<string> -> seq<Filter>)
      ensures this.index == index && this.searchFilters == searchFilters
    {
      this.index := index;
      this.searchFilters := searchFilters;
    }

    /** getByUuid: the stored record with that uuid, or null. */
    function GetByUuid(uuid: string): (r: Option<R>)
      reads index
      ensures r.Some? ==> r.value in index.docs && index.uuidOf(r.value) == uuid
      ensures r.None? <==> forall i :: 0 <= i < |index.docs| ==> index.uuidOf(index.docs[i]) != uuid
    {
      index.GetObject(uuid)
    }

    /** save: one createObject with the descriptor of the resource key. */
    method Save(obj: R, resource: string)
      requires Valid()
      modifies index
      ensures Valid()
      ensures index.docs == Upsert(old(index.docs), index.uuidOf, obj)
      ensures index.calls == old(index.calls) + [Call.CreateObject(obj, resource)]
      ensures GetByUuid(index.uuidOf(obj)) == Some(obj)
      ensures forall u :: u != index.uuidOf(obj) ==> GetByUuid(u) == old(GetByUuid(u))
    {
      index.CreateObject(obj, resource);
    }

    /** update: one updateObject with the descriptor of the resource key. */
    method Update(obj: R, resource: string)
      requires Valid()
      modifies index
      ensures Valid()
      ensures index.docs == Upsert(old(index.docs), index.uuidOf, obj)
      ensures index.calls == old(index.calls) + [Call.UpdateObject(obj, resource)]
      ensures GetByUuid(index.uuidOf(obj)) == Some(obj)
      ensures forall u :: u != index.uuidOf(obj) ==> GetByUuid(u) == old(GetByUuid(u))
    {
      index.UpdateObject(obj, resource);
    }

    /** delete: one invalidate of the record with the descriptor of the
        resource key; afterwards its uuid is not found. */
    method Delete(obj: R, resource: string)
      requires Valid()
      modifies index
      ensures Valid()
      ensures index.docs == Remove(old(index.docs), index.uuidOf, index.uuidOf(obj))
      ensures index.calls == old(index.calls) + [Call.Invalidate(obj, resource)]
      ensures GetByUuid(index.uuidOf(obj)) == None
      ensures forall u :: u != index.uuidOf(obj) ==> GetByUuid(u) == old(GetByUuid(u))
    {
      index.Invalidate(obj, resource);
    }

    /** save of a list: the records are saved one by one, in list order. */
    method SaveAll(objs: seq<R>, resource: string)
      requires Valid()
      modifies index
      ensures Valid()
      ensures index.docs == UpsertAll(old(index.docs), index.uuidOf, objs)
      ensures index.calls == old(index.calls) + CreateCalls(objs, resource)
    {
      var i := 0;
      while i < |objs|
        invariant 0 <= i <= |objs| && Valid()
        invariant index.docs == UpsertAll(old(index.docs), index.uuidOf, objs[..i])
        invariant index.calls == old(index.calls) + CreateCalls(objs[..i], resource)
      {
        assert objs[..i + 1][..i] == objs[..i];
        Save(objs[i], resource);
        i := i + 1;
      }
      assert objs[..i] == objs;
    }

    /** update of a list: the records are updated one by one, in list order. */
    method UpdateAll(objs: seq<R>, resource: string)
      requires Valid()
      modifies index
      ensures Valid()
      ensures index.docs == UpsertAll(old(index.docs), index.uuidOf, objs)
      ensures index.calls == old(index.calls) + UpdateCalls(objs, resource)
    {
      var i := 0;
      while i < |objs|
        invariant 0 <= i <= |objs| && Valid()
        invariant index.docs == UpsertAll(old(index.docs), index.uuidOf, objs[..i])
        invariant index.calls == old(index.calls) + UpdateCalls(objs[..i], resource)
      {
        assert objs[..i + 1][..i] == objs[..i];
        Update(objs[i], resource);
        i := i + 1;
      }
      assert objs[..i] == objs;
    }

    /** getByName: the filter list is built by one conditional add, then the
        index answers it. An empty name returns every record. */
    method GetByName(name: string) returns (rs: seq<R>)
      ensures rs == index.GetObjects(NameFilters(name))
      ensures IsEmpty(name) ==> rs == index.docs
      ensures !IsEmpty(name) ==> forall r :: r in rs ==> index.matches(r, Filter("name", name + "*"))
    {
      var filters: seq<Filter> := [];
      if !IsEmpty(name) {
        filters := filters + [Filter("name", name + "*")];
      }
      assert filters == NameFilters(name);
      rs := index.GetObjects(filters);
      if IsEmpty(name) {
        SelectWithoutFilters(index.docs, index.matches);
      } else {
        forall r | r in rs ensures index.matches(r, Filter("name", name + "*")) {
          assert MatchesAll(r, filters, index.matches) && filters[0] == Filter("name", name + "*");
        }
      }
    }

    /** getAll: every stored record of the type. */
    method GetAll() returns (rs: seq<R>)
      ensures rs == index.docs
    {
      rs := index.GetObjects([]);
      SelectWithoutFilters(index.docs, index.matches);
    }

    /** search: the entity DAO's free-text search on the given arguments. */
    method Search(args: seq<string>) returns (rs: seq<R>)
      ensures rs == index.GetObjects(searchFilters(args))
    {
      rs := index.GetObjects(searchFilters(args));
    }

    /** download(parameters, resource): a REST fetch whose parsed outcome is
        `response`. Which downloaded records end up in the index, and when,
        is left open. */
    method Download(parameters: map<string, string>, resource: string, response: Result<seq<R>, Error>)
      returns (r: Result<seq<R>, Error>)
      requires Valid()
      modifies index
      ensures Valid()
      ensures r == response
      ensures index.calls == old(index.calls) + [Call.Download(parameters, resource)]
    {
      index.calls := index.calls + [Call.Download(parameters, resource)];
      r := response;
    }

    /** download(term, resource): the same, with a single search term. */
    method DownloadTerm(term: string, resource: string, response: Result<seq<R>, Error>)
      returns (r: Result<seq<R>, Error>)
      requires Valid()
      modifies index
      ensures Valid()
      ensures r == response
      ensures index.calls == old(index.calls) + [Call.DownloadTerm(term, resource)]
    {
      index.calls := index.calls + [Call.DownloadTerm(term, resource)];
      r := response;
    }
  }
}

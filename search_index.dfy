/** The external search index the data-access objects delegate to, kept
    abstract: its documents in index order, how a document matches a filter
    (uninterpreted, a parameter), and how it windows a paged query. */
module SearchIndex {
  import opened Wrappers
  import opened Filters

  /** A state-changing request the data layer sends to its external
      collaborators (the index or the REST layer), recorded
      with the resource key whose descriptor accompanies it. */
  datatype Call<R> =
    | CreateObject(obj: R, resource: string)
    | UpdateObject(obj: R, resource: string)
    | Invalidate(obj: R, resource: string)
    | Download(parameters: map<string, string>, resource: string)
    | DownloadTerm(term: string, resource: string)

  /** No uuid occurs twice: uuids identify the documents of one type. */
  ghost predicate UniqueUuids<R>(docs: seq<R>, uuidOf: R -> string) {
    forall i, j :: 0 <= i < j < |docs| ==> uuidOf(docs[i]) != uuidOf(docs[j])
  }

  /** The document stored under a uuid, or None (Java's null). */
  function Find<R(==)>(docs: seq<R>, uuidOf: R -> string, uuid: string): (r: Option<R>)
    ensures r.Some? ==> r.value in docs && uuidOf(r.value) == uuid
    ensures r.None? <==> forall i :: 0 <= i < |docs| ==> uuidOf(docs[i]) != uuid
  {
    if docs == [] then None
    else if uuidOf(docs[0]) == uuid then Some(docs[0])
    else Find(docs[1..], uuidOf, uuid)
  }

  /** Whole-record store keyed by uuid: replaces the document with the same
      uuid in place, or appends a new one. */
  function Upsert<R(==)>(docs: seq<R>, uuidOf: R -> string, obj: R): (r: seq<R>)
    ensures obj in r
    ensures |docs| <= |r| <= |docs| + 1
    ensures forall d :: d in r ==> d == obj || d in docs
  {
    if docs == [] then [obj]
    else if uuidOf(docs[0]) == uuidOf(obj) then [obj] + docs[1..]
    else [docs[0]] + Upsert(docs[1..], uuidOf, obj)
  }

  /** Drops every document stored under the uuid. */
  function Remove<R(==)>(docs: seq<R>, uuidOf: R -> string, uuid: string): (r: seq<R>)
    ensures |r| <= |docs|
    ensures forall d :: d in r ==> d in docs && uuidOf(d) != uuid
    ensures forall d :: d in docs && uuidOf(d) != uuid ==> d in r
  {
    if docs == [] then []
    else if uuidOf(docs[0]) == uuid then Remove(docs[1..], uuidOf, uuid)
    else [docs[0]] + Remove(docs[1..], uuidOf, uuid)
  }

  /** A document satisfies a filter list when it matches every filter; the
      empty list is satisfied by every document. */
  predicate MatchesAll<R>(doc: R, filters: seq<Filter>, matches: (R, Filter) -> bool) {
    forall i :: 0 <= i < |filters| ==> matches(doc, filters[i])
  }

  /** The documents matching a filter list, in index order. */
  function Select<R(==)>(docs: seq<R>, filters: seq<Filter>, matches: (R, Filter) -> bool): (rs: seq<R>)
    ensures |rs| <= |docs|
    ensures forall r :: r in rs ==> r in docs && MatchesAll(r, filters, matches)
  {
    if docs == [] then []
    else if MatchesAll(docs[0], filters, matches) then [docs[0]] + Select(docs[1..], filters, matches)
    else Select(docs[1..], filters, matches)
  }

  function Min(a: nat, b: nat): (m: nat)
    ensures m <= a && m <= b && (m == a || m == b)
  {
    if a <= b then a else b
  }

  /** The window [offset, offset + limit) of a result list, cut at its end:
      the longest run of at most `limit` results starting at `offset`. */
  function Window<R>(rs: seq<R>, offset: nat, limit: nat): (w: seq<R>)
    ensures w <= rs[Min(offset, |rs|)..]
    ensures |w| == Min(limit, |rs| - Min(offset, |rs|))
  {
    var lo := Min(offset, |rs|);
    rs[lo..lo + Min(limit, |rs| - lo)]
  }

  lemma {:induction false} UpsertFind<R>(docs: seq<R>, uuidOf: R -> string, obj: R, uuid: string)
    ensures Find(Upsert(docs, uuidOf, obj), uuidOf, uuid)
         == if uuid == uuidOf(obj) then Some(obj) else Find(docs, uuidOf, uuid)
  {
    if docs != [] && uuidOf(docs[0]) != uuidOf(obj) {
      UpsertFind(docs[1..], uuidOf, obj, uuid);
    } else if docs != [] {
      assert ([obj] + docs[1..])[1..] == docs[1..];
    }
  }

  lemma {:induction false} RemoveFind<R>(docs: seq<R>, uuidOf: R -> string, removed: string, uuid: string)
    ensures Find(Remove(docs, uuidOf, removed), uuidOf, uuid)
         == if uuid == removed then None else Find(docs, uuidOf, uuid)
  {
    if docs != [] {
      RemoveFind(docs[1..], uuidOf, removed, uuid);
      if uuidOf(docs[0]) != removed {
        assert ([docs[0]] + Remove(docs[1..], uuidOf, removed))[1..] == Remove(docs[1..], uuidOf, removed);
      }
    }
  }

  /** The uuids present after an upsert are the old ones plus the new one. */
  lemma {:induction false} UpsertUuids<R>(docs: seq<R>, uuidOf: R -> string, obj: R, k: int)
    requires 0 <= k < |Upsert(docs, uuidOf, obj)|
    ensures var u := uuidOf(Upsert(docs, uuidOf, obj)[k]);
      u == uuidOf(obj) || exists i :: 0 <= i < |docs| && uuidOf(docs[i]) == u
  {
    if docs != [] && uuidOf(docs[0]) != uuidOf(obj) && k > 0 {
      UpsertUuids(docs[1..], uuidOf, obj, k - 1);
      var u := uuidOf(Upsert(docs, uuidOf, obj)[k]);
      if u != uuidOf(obj) {
        var i :| 0 <= i < |docs[1..]| && uuidOf(docs[1..][i]) == u;
        assert uuidOf(docs[i + 1]) == u;
      }
    } else if docs != [] && k > 0 {
      assert uuidOf(docs[k]) == uuidOf(Upsert(docs, uuidOf, obj)[k]);
    }
  }

  lemma {:induction false} UpsertKeepsUnique<R>(docs: seq<R>, uuidOf: R -> string, obj: R)
    requires UniqueUuids(docs, uuidOf)
    ensures UniqueUuids(Upsert(docs, uuidOf, obj), uuidOf)
  {
    if docs != [] {
      var rest := Upsert(docs[1..], uuidOf, obj);
      UpsertKeepsUnique(docs[1..], uuidOf, obj);
      if uuidOf(docs[0]) != uuidOf(obj) {
        forall k | 0 <= k < |rest| ensures uuidOf(rest[k]) != uuidOf(docs[0]) {
          UpsertUuids(docs[1..], uuidOf, obj, k);
        }
      }
    }
  }

  /** Every document kept by Remove comes from the input. */
  lemma {:induction false} RemoveFrom<R>(docs: seq<R>, uuidOf: R -> string, removed: string, k: int)
    requires 0 <= k < |Remove(docs, uuidOf, removed)|
    ensures exists i :: 0 <= i < |docs| && docs[i] == Remove(docs, uuidOf, removed)[k]
  {
    var rest := Remove(docs[1..], uuidOf, removed);
    if uuidOf(docs[0]) == removed {
      RemoveFrom(docs[1..], uuidOf, removed, k);
      var i :| 0 <= i < |docs[1..]| && docs[1..][i] == rest[k];
      assert docs[i + 1] == rest[k];
    } else if k > 0 {
      RemoveFrom(docs[1..], uuidOf, removed, k - 1);
      var i :| 0 <= i < |docs[1..]| && docs[1..][i] == rest[k - 1];
      assert docs[i + 1] == rest[k - 1];
    } else {
      assert docs[0] == Remove(docs, uuidOf, removed)[0];
    }
  }

  lemma {:induction false} RemoveKeepsUnique<R>(docs: seq<R>, uuidOf: R -> string, removed: string)
    requires UniqueUuids(docs, uuidOf)
    ensures UniqueUuids(Remove(docs, uuidOf, removed), uuidOf)
  {
    if docs != [] {
      var rest := Remove(docs[1..], uuidOf, removed);
      RemoveKeepsUnique(docs[1..], uuidOf, removed);
      if uuidOf(docs[0]) != removed {
        forall k | 0 <= k < |rest| ensures uuidOf(rest[k]) != uuidOf(docs[0]) {
          RemoveFrom(docs[1..], uuidOf, removed, k);
          var i :| 0 <= i < |docs[1..]| && docs[1..][i] == rest[k];
          assert docs[i + 1] == rest[k];
        }
      }
    }
  }

  /** Every document that matches the filters is selected. */
  lemma {:induction false} SelectComplete<R>(docs: seq<R>, filters: seq<Filter>, matches: (R, Filter) -> bool, doc: R)
    requires doc in docs && MatchesAll(doc, filters, matches)
    ensures doc in Select(docs, filters, matches)
  {
    if docs[0] != doc {
      assert doc in docs[1..];
      SelectComplete(docs[1..], filters, matches, doc);
    }
  }

  /** An empty filter list selects every document, in index order. */
  lemma {:induction false} SelectWithoutFilters<R>(docs: seq<R>, matches: (R, Filter) -> bool)
    ensures Select(docs, [], matches) == docs
  {
    if docs != [] {
      SelectWithoutFilters(docs[1..], matches);
    }
  }

  /** Selection keeps uuids unique. */
  lemma {:induction false} SelectKeepsUnique<R>(docs: seq<R>, uuidOf: R -> string, filters: seq<Filter>, matches: (R, Filter) -> bool)
    requires UniqueUuids(docs, uuidOf)
    ensures UniqueUuids(Select(docs, filters, matches), uuidOf)
  {
    if docs != [] {
      var rest := Select(docs[1..], filters, matches);
      SelectKeepsUnique(docs[1..], uuidOf, filters, matches);
      forall k | 0 <= k < |rest| ensures uuidOf(rest[k]) != uuidOf(docs[0]) {
        assert rest[k] in docs[1..];
      }
    }
  }

  /** The local search index: documents of one entity type in index order.
      `matches` and `pageWindow` stand for the query semantics of the index,
      which this model leaves uninterpreted; `calls` records every
      state-changing request (createObject, updateObject, invalidate) and every
      download; the read-only queries are functions and are not recorded. */
  class Index<R(==)> {
    const uuidOf: R -> string
    const matches: (R, Filter) -> bool
    const pageWindow: (int, int) -> (nat, nat)
    var docs: seq<R>
    ghost var calls: seq<Call<R>>

    ghost predicate Valid()
      reads this
    {
      UniqueUuids(docs, uuidOf)
    }

    constructor (uuidOf: R -> string, matches: (R, Filter) -> bool, pageWindow: (int, int) -> (nat, nat))
      ensures Valid() && docs == [] && calls == []
      ensures this.uuidOf == uuidOf && this.matches == matches && this.pageWindow == pageWindow
    {
      this.uuidOf := uuidOf;
      this.matches := matches;
      this.pageWindow := pageWindow;
      docs := [];
      calls := [];
    }

    /** getObject(uuid, type): the stored document with that uuid, or null. */
    function GetObject(uuid: string): (r: Option<R>)
      reads this
      ensures r.Some? ==> r.value in docs && uuidOf(r.value) == uuid
      ensures r.None? <==> forall i :: 0 <= i < |docs| ==> uuidOf(docs[i]) != uuid
    {
      Find(docs, uuidOf, uuid)
    }

    /** getObjects(filters, type): every document matching all filters. */
    function GetObjects(filters: seq<Filter>): (rs: seq<R>)
      reads this
      ensures forall r :: r in rs ==> r in docs && MatchesAll(r, filters, matches)
    {
      Select(docs, filters, matches)
    }

    /** getObjects(filters, type, page, pageSize): a contiguous window, chosen
        by the index from page and pageSize, of the unpaged result. */
    function GetObjectsPage(filters: seq<Filter>, page: int, pageSize: int): (rs: seq<R>)
      reads this
      ensures |rs| <= pageWindow(page, pageSize).1
      ensures rs <= GetObjects(filters)[Min(pageWindow(page, pageSize).0, |GetObjects(filters)|)..]
    {
      Window(GetObjects(filters), pageWindow(page, pageSize).0, pageWindow(page, pageSize).1)
    }

    method CreateObject(obj: R, resource: string)
      requires Valid()
      modifies this
      ensures Valid()
      ensures docs == Upsert(old(docs), uuidOf, obj)
      ensures calls == old(calls) + [Call.CreateObject(obj, resource)]
      ensures forall u :: GetObject(u) == if u == uuidOf(obj) then Some(obj) else old(GetObject(u))
    {
      UpsertKeepsUnique(docs, uuidOf, obj);
      forall u ensures Find(Upsert(docs, uuidOf, obj), uuidOf, u) == if u == uuidOf(obj) then Some(obj) else Find(docs, uuidOf, u) {
        UpsertFind(docs, uuidOf, obj, u);
      }
      docs := Upsert(docs, uuidOf, obj);
      calls := calls + [Call.CreateObject(obj, resource)];
    }

    method UpdateObject(obj: R, resource: string)
      requires Valid()
      modifies this
      ensures Valid()
      ensures docs == Upsert(old(docs), uuidOf, obj)
      ensures calls == old(calls) + [Call.UpdateObject(obj, resource)]
      ensures forall u :: GetObject(u) == if u == uuidOf(obj) then Some(obj) else old(GetObject(u))
    {
      UpsertKeepsUnique(docs, uuidOf, obj);
      forall u ensures Find(Upsert(docs, uuidOf, obj), uuidOf, u) == if u == uuidOf(obj) then Some(obj) else Find(docs, uuidOf, u) {
        UpsertFind(docs, uuidOf, obj, u);
      }
      docs := Upsert(docs, uuidOf, obj);
      calls := calls + [Call.UpdateObject(obj, resource)];
    }

    method Invalidate(obj: R, resource: string)
      requires Valid()
      modifies this
      ensures Valid()
      ensures docs == Remove(old(docs), uuidOf, uuidOf(obj))
      ensures calls == old(calls) + [Call.Invalidate(obj, resource)]
      ensures forall u :: GetObject(u) == if u == uuidOf(obj) then None else old(GetObject(u))
    {
      RemoveKeepsUnique(docs, uuidOf, uuidOf(obj));
      forall u ensures Find(Remove(docs, uuidOf, uuidOf(obj)), uuidOf, u) == if u == uuidOf(obj) then None else Find(docs, uuidOf, u) {
        RemoveFind(docs, uuidOf, uuidOf(obj), u);
      }
      docs := Remove(docs, uuidOf, uuidOf(obj));
      calls := calls + [Call.Invalidate(obj, resource)];
    }
  }
}

/** The filter lists the data-access objects hand to the search index.
    A filter is one (field, value) match predicate; the index interprets it. */
module Filters {

  datatype Filter = Filter(field: string, value: string)

  /** StringUtil.isEmpty: true of null and of the zero-length string. Java's
      null is modelled by "", which this predicate treats alike. */
  predicate IsEmpty(s: string) {
    |s| == 0
  }

  /** The filter list of a partial-name lookup: nothing for an empty name,
      otherwise one filter on "name" whose value is the name followed by the
      wildcard "*", with no escaping. */
  function NameFilters(name: string): (fs: seq<Filter>)
    ensures fs == [] <==> IsEmpty(name)
    ensures forall f :: f in fs ==> f.field == "name" && name < f.value && f.value[|name|] == '*'
  {
    if IsEmpty(name) then [] else [Filter("name", name + "*")]
  }

  lemma NameFiltersShape(name: string)
    ensures NameFilters(name) == [] <==> IsEmpty(name)
    ensures |NameFilters(name)| <= 1
    ensures !IsEmpty(name) ==>
      var f := NameFilters(name)[0];
      && f.field == "name"
      && |f.value| == |name| + 1
      && f.value[..|name|] == name
      && f.value[|name|] == '*'
  {
  }

  /** The general filter-builder rule: keep, in order, the candidate filters
      whose value is not empty. */
  function Active(candidates: seq<Filter>): (fs: seq<Filter>)
    ensures |fs| <= |candidates|
    ensures forall f :: f in fs ==> f in candidates && !IsEmpty(f.value)
    ensures forall f :: f in candidates && !IsEmpty(f.value) ==> f in fs
  {
    if candidates == [] then []
    else if IsEmpty(candidates[0].value) then Active(candidates[1..])
    else [candidates[0]] + Active(candidates[1..])
  }

  /** One optional exact-match filter: present only for a non-empty value,
      which is used verbatim. */
  function Optional(field: string, value: string): (fs: seq<Filter>)
    ensures fs == [] <==> IsEmpty(value)
    ensures forall f :: f in fs ==> f == Filter(field, value)
  {
    if IsEmpty(value) then [] else [Filter(field, value)]
  }

  /** The filter list of FormDataDaoImpl.getAll, both overloads. */
  function FormDataFilters(patientUuid: string, userUuid: string, status: string): (fs: seq<Filter>)
    ensures |fs| <= 3
    ensures forall f :: f in fs ==> !IsEmpty(f.value)
    ensures forall f :: f in fs ==>
      f in [Filter("patientUuid", patientUuid), Filter("userUuid", userUuid), Filter("status", status)]
  {
    Optional("patientUuid", patientUuid) + Optional("userUuid", userUuid) + Optional("status", status)
  }

  /** Position of a form-data filter field in the order the filters are added. */
  function FormDataRank(field: string): (rank: nat)
    ensures rank <= 2
  {
    if field == "patientUuid" then 0 else if field == "userUuid" then 1 else 2
  }

  /** The number of non-empty values: zero exactly when all are empty, and
      the whole length exactly when none is. */
  function CountNonEmpty(values: seq<string>): (n: nat)
    ensures n <= |values|
    ensures n == 0 <==> forall i :: 0 <= i < |values| ==> IsEmpty(values[i])
    ensures n == |values| <==> forall i :: 0 <= i < |values| ==> !IsEmpty(values[i])
  {
    if values == [] then 0
    else (if IsEmpty(values[0]) then 0 else 1) + CountNonEmpty(values[1..])
  }

  predicate HasField(fs: seq<Filter>, field: string) {
    exists i :: 0 <= i < |fs| && fs[i].field == field
  }

  /** Each filter is present exactly when its argument is non-empty, carries
      that argument verbatim, the filters come in the order patientUuid,
      userUuid, status, and there are as many as non-empty arguments. */
  lemma FormDataFiltersSpec(patientUuid: string, userUuid: string, status: string)
    ensures var fs := FormDataFilters(patientUuid, userUuid, status);
      && (HasField(fs, "patientUuid") <==> !IsEmpty(patientUuid))
      && (HasField(fs, "userUuid") <==> !IsEmpty(userUuid))
      && (HasField(fs, "status") <==> !IsEmpty(status))
      && (forall i :: 0 <= i < |fs| ==>
            || (fs[i].field == "patientUuid" && fs[i].value == patientUuid)
            || (fs[i].field == "userUuid" && fs[i].value == userUuid)
            || (fs[i].field == "status" && fs[i].value == status))
      && (forall i, j :: 0 <= i < j < |fs| ==> FormDataRank(fs[i].field) < FormDataRank(fs[j].field))
      && |fs| == CountNonEmpty([patientUuid, userUuid, status])
  {
    var fs := FormDataFilters(patientUuid, userUuid, status);
    var p, u, s := Optional("patientUuid", patientUuid), Optional("userUuid", userUuid), Optional("status", status);
    assert fs == p + u + s;
    if !IsEmpty(patientUuid) { assert fs[0].field == "patientUuid"; }
    if !IsEmpty(userUuid) { assert fs[|p|].field == "userUuid"; }
    if !IsEmpty(status) { assert fs[|p| + |u|].field == "status"; }
    calc {
      CountNonEmpty([patientUuid, userUuid, status]);
      |p| + CountNonEmpty([patientUuid, userUuid, status][1..]);
      { assert [patientUuid, userUuid, status][1..] == [userUuid, status]; }
      |p| + CountNonEmpty([userUuid, status]);
      { assert [userUuid, status][1..] == [status]; }
      |p| + |u| + CountNonEmpty([status]);
      { assert [status][1..] == []; }
      |p| + |u| + |s|;
    }
  }

  /** One unfolding of Active: the first candidate, then the rest. */
  lemma ActiveCons(f: Filter, rest: seq<Filter>)
    ensures Active([f] + rest) == Optional(f.field, f.value) + Active(rest)
  {
  }

  /** The rule works candidate by candidate: the filters kept from a
      concatenation are those kept from each part, in the same order. With
      ActiveSingle this pins down Active completely, order and repeats
      included. */
  lemma {:induction false} ActiveAppend(xs: seq<Filter>, ys: seq<Filter>)
    ensures Active(xs + ys) == Active(xs) + Active(ys)
  {
    if xs == [] {
      assert xs + ys == ys;
    } else {
      var x, t := xs[0], xs[1..];
      calc {
        Active(xs + ys);
        { assert xs + ys == [x] + (t + ys); }
        Active([x] + (t + ys));
        { ActiveCons(x, t + ys); }
        Optional(x.field, x.value) + Active(t + ys);
        { ActiveAppend(t, ys); }
        Optional(x.field, x.value) + (Active(t) + Active(ys));
        (Optional(x.field, x.value) + Active(t)) + Active(ys);
        { assert xs == [x] + t; ActiveCons(x, t); }
        Active(xs) + Active(ys);
      }
    }
  }

  /** A single candidate is kept exactly when its value is non-empty. */
  lemma ActiveSingle(f: Filter)
    ensures Active([f]) == Optional(f.field, f.value)
  {
    ActiveCons(f, []);
    assert [f] + [] == [f];
  }

  /** FormDataFilters agrees with the general rule applied to the three
      candidate pairs in argument order. */
  lemma {:induction false} FormDataFiltersAreActive(patientUuid: string, userUuid: string, status: string)
    ensures FormDataFilters(patientUuid, userUuid, status)
         == Active([Filter("patientUuid", patientUuid), Filter("userUuid", userUuid), Filter("status", status)])
  {
    var p, u, s := Filter("patientUuid", patientUuid), Filter("userUuid", userUuid), Filter("status", status);
    calc {
      Active([p, u, s]);
      { assert [p, u, s] == [p] + [u, s]; ActiveCons(p, [u, s]); }
      Optional(p.field, p.value) + Active([u, s]);
      { assert [u, s] == [u] + [s]; ActiveCons(u, [s]); }
      Optional(p.field, p.value) + (Optional(u.field, u.value) + Active([s]));
      { assert [s] == [s] + []; ActiveCons(s, []); }
      Optional(p.field, p.value) + (Optional(u.field, u.value) + (Optional(s.field, s.value) + Active([])));
    }
    assert Active([]) == [];
  }
}

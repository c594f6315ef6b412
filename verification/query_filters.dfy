/**
 Query-parameter translation (`PatchworkViewSet.get_queryset`): each
 endpoint has a table from request query parameter to ORM lookup name; a
 listing walks the request's parameters in order, renames every parameter
 the table knows, and drops every other one. The ORM then applies the
 resulting lookup map; evaluating it is the ORM's business and is not
 modelled.
 */
module QueryFilters {
  import opened Entities
  import opened Permissions

  /** Query parameters in the order `query_params.items()` yields them. */
  type QueryParams = seq<(string, string)>

  /** `PatchViewSet.query_filters`; `since`/`until` are strict date bounds. */
  const PatchQueryFilters: map<string, string> := map[
    "project" := "project__name",
    "submitter" := "submitter__name",
    "delegate" := "delegate__name",
    "state" := "state__name",
    "since" := "date__gt",
    "until" := "date__lt"
  ]

  /** Only the patch endpoint declares filters; the others inherit the empty table. */
  function QueryFiltersOf(res: Resource): map<string, string> {
    if res.Patches? then PatchQueryFilters else map[]
  }

  /** `if name:` in the source: a parameter is kept when the table maps it to a non-empty lookup. */
  predicate Kept(table: map<string, string>, param: string) {
    param in table && table[param] != ""
  }

  /** Parameter `i` is kept and the table sends it to `name`. */
  predicate NamedBy(table: map<string, string>, params: QueryParams, name: string, i: int) {
    && 0 <= i < |params|
    && Kept(table, params[i].0)
    && table[params[i].0] == name
  }

  /** Parameter `i` is the last kept parameter whose lookup is `name`. */
  predicate LastFor(table: map<string, string>, params: QueryParams, name: string, i: int) {
    && NamedBy(table, params, name, i)
    && forall j :: i < j < |params| ==> !NamedBy(table, params, name, j)
  }

  /** The filter map `get_queryset` builds: a left-to-right walk where later parameters overwrite. */
  function Translate(table: map<string, string>, params: QueryParams): map<string, string> {
    if |params| == 0 then map[]
    else
      var (param, val) := params[|params| - 1];
      var filters := Translate(table, params[..|params| - 1]);
      if Kept(table, param) then filters[table[param] := val] else filters
  }

  /**
   A lookup appears in the filter map exactly when some kept parameter is
   renamed to it, and it carries the value of the last such parameter.
   */
  lemma {:induction false} TranslateMeaning(table: map<string, string>, params: QueryParams)
    ensures forall name :: name in Translate(table, params) <==> exists i :: NamedBy(table, params, name, i)
    ensures forall name :: name in Translate(table, params) ==>
              exists i :: LastFor(table, params, name, i) && Translate(table, params)[name] == params[i].1
  {
    if |params| > 0 {
      var last := |params| - 1;
      var prefix := params[..last];
      TranslateMeaning(table, prefix);
      var before := Translate(table, prefix);
      var after := Translate(table, params);
      var (param, val) := params[last];
      var lastKept := Kept(table, param);
      assert after == if lastKept then before[table[param] := val] else before;
      forall name, i | NamedBy(table, prefix, name, i)
        ensures NamedBy(table, params, name, i)
      {
        assert prefix[i] == params[i];
      }
      forall name, i | NamedBy(table, params, name, i) && i < last
        ensures NamedBy(table, prefix, name, i)
      {
        assert prefix[i] == params[i];
      }
      forall name | name in after
        ensures exists i :: LastFor(table, params, name, i) && after[name] == params[i].1
      {
        if lastKept && name == table[param] {
          assert LastFor(table, params, name, last);
        } else {
          var i :| LastFor(table, prefix, name, i) && before[name] == prefix[i].1;
          assert prefix[i] == params[i];
          assert LastFor(table, params, name, i);
        }
      }
      forall name
        ensures name in after <==> exists i :: NamedBy(table, params, name, i)
      {
        if exists i :: NamedBy(table, params, name, i) {
          var i :| NamedBy(table, params, name, i);
          if i < last {
            assert NamedBy(table, prefix, name, i);
          }
        }
      }
    }
  }

  /** The loop of `get_queryset`, step for step. */
  method BuildFilters(table: map<string, string>, params: QueryParams) returns (filters: map<string, string>)
    ensures filters == Translate(table, params)
  {
    filters := map[];
    for i := 0 to |params|
      invariant filters == Translate(table, params[..i])
    {
      assert params[..i + 1][..i] == params[..i];
      var (param, val) := params[i];
      if param in table {
        var name := table[param];
        if name != "" {
          filters := filters[name := val];
        }
      }
    }
    assert params[..|params|] == params;
  }

  /** An unknown parameter is dropped wherever it stands: it is neither rejected nor felt. */
  lemma {:induction false} UnknownParameterDropped(table: map<string, string>, before: QueryParams,
                                                   param: string, val: string, after: QueryParams)
    requires !Kept(table, param)
    ensures Translate(table, before + [(param, val)] + after) == Translate(table, before + after)
    decreases |after|
  {
    if |after| == 0 {
      assert before + [(param, val)] + after == before + [(param, val)];
      assert (before + [(param, val)])[..|before|] == before;
      assert before + after == before;
    } else {
      var rest := after[..|after| - 1];
      UnknownParameterDropped(table, before, param, val, rest);
      var withParam := before + [(param, val)] + after;
      var without := before + after;
      assert withParam[..|withParam| - 1] == before + [(param, val)] + rest;
      assert without[..|without| - 1] == before + rest;
      assert withParam[|withParam| - 1] == after[|after| - 1] == without[|without| - 1];
    }
  }

  /** Endpoints without a filter table apply no filter, whatever the request carries. */
  lemma NoFiltersWithoutTable(res: Resource, params: QueryParams)
    requires !res.Patches?
    ensures Translate(QueryFiltersOf(res), params) == map[]
  {
    TranslateMeaning(QueryFiltersOf(res), params);
  }

  /** The table sends different parameters to different lookups. */
  ghost predicate Injective(table: map<string, string>) {
    forall a, b :: a in table && b in table && a != b ==> table[a] != table[b]
  }

  /** `query_params.items()` yields every parameter name once. */
  ghost predicate DistinctNames(params: QueryParams) {
    forall i, j :: 0 <= i < j < |params| ==> params[i].0 != params[j].0
  }

  /** With an injective table and distinct names, every kept parameter is renamed with its value intact. */
  lemma RenamedWithValue(table: map<string, string>, params: QueryParams, i: int)
    requires Injective(table) && DistinctNames(params)
    requires 0 <= i < |params| && Kept(table, params[i].0)
    ensures table[params[i].0] in Translate(table, params)
    ensures Translate(table, params)[table[params[i].0]] == params[i].1
  {
    TranslateMeaning(table, params);
    var filters := Translate(table, params);
    var name := table[params[i].0];
    assert NamedBy(table, params, name, i);
    var j :| LastFor(table, params, name, j) && filters[name] == params[j].1;
    assert params[j].0 == params[i].0;
    assert i == j;
  }

  lemma PatchQueryFiltersInjective()
    ensures Injective(PatchQueryFilters)
  {
  }

  /**
   A patch listing turns `since` and `until` into the strict bounds
   `date__gt` and `date__lt`, and uses no lookup outside the patch table.
   */
  lemma PatchDateBounds(params: QueryParams, since: string, until: string)
    requires DistinctNames(params)
    ensures forall name :: name in Translate(PatchQueryFilters, params) ==> name in PatchQueryFilters.Values
    ensures ("since", since) in params ==>
              "date__gt" in Translate(PatchQueryFilters, params)
              && Translate(PatchQueryFilters, params)["date__gt"] == since
    ensures ("until", until) in params ==>
              "date__lt" in Translate(PatchQueryFilters, params)
              && Translate(PatchQueryFilters, params)["date__lt"] == until
  {
    TranslateMeaning(PatchQueryFilters, params);
    PatchQueryFiltersInjective();
    if ("since", since) in params {
      var i :| 0 <= i < |params| && params[i] == ("since", since);
      RenamedWithValue(PatchQueryFilters, params, i);
    }
    if ("until", until) in params {
      var i :| 0 <= i < |params| && params[i] == ("until", until);
      RenamedWithValue(PatchQueryFilters, params, i);
    }
  }
}

/**
  The query-string handling of the task list endpoint (app/api/tasks/route.ts):
  how the GET handler turns URL search parameters into the options of a
  filtered task query. The handler's request and response plumbing is not
  modelled.
 */
module TasksRoute {
  import opened Seqs
  import opened Notion

  /** URL search parameters, in order; a key may repeat. */
  type SearchParams = seq<(string, string)>

  /** `searchParams.get(key)`: the value of the first pair with that key, `None` for null. */
  function Get(params: SearchParams, key: string): Option<string>
    decreases |params|
  {
    if params == [] then None
    else if params[0].0 == key then Some(params[0].1)
    else Get(params[1..], key)
  }

  /** `get` is null exactly when no pair has the key, and otherwise is the value of the first pair that has it. */
  lemma {:induction false} GetFindsFirst(params: SearchParams, key: string)
    ensures Get(params, key).None? <==> forall i :: 0 <= i < |params| ==> params[i].0 != key
    ensures Get(params, key).Some? ==>
              exists i :: && 0 <= i < |params| && params[i] == (key, Get(params, key).value)
                          && forall j :: 0 <= j < i ==> params[j].0 != key
    decreases |params|
  {
    if params == [] {
    } else if params[0].0 == key {
      assert params[0] == (key, Get(params, key).value);
    } else {
      var rest := params[1..];
      GetFindsFirst(rest, key);
      if Get(rest, key).Some? {
        var i :| 0 <= i < |rest| && rest[i] == (key, Get(rest, key).value) && forall j :: 0 <= j < i ==> rest[j].0 != key;
        assert params[i + 1] == rest[i];
        forall j | 0 <= j < i + 1 ensures params[j].0 != key {
          if j > 0 {
            assert params[j] == rest[j - 1];
          }
        }
      } else {
        forall i | 0 <= i < |params| ensures params[i].0 != key {
          if i > 0 {
            assert params[i] == rest[i - 1];
          }
        }
      }
    }
  }

  /**
    The options the GET handler passes on: priority and status as given, the
    search only when non-empty, and a sort only when both the field and the
    direction are non-empty.
   */
  function OptionsFromParams(params: SearchParams): (o: QueryOptions)
    ensures o.priority == Get(params, "priority") && o.status == Get(params, "status")
    ensures o.search.Some? <==> Truthy(Get(params, "search"))
    ensures o.search.Some? ==> o.search == Get(params, "search")
    ensures o.sort.Some? <==> Truthy(Get(params, "sortField")) && Truthy(Get(params, "sortDirection"))
    ensures o.sort.Some? ==> o.sort.value == SortOption(Get(params, "sortField").value, Get(params, "sortDirection").value)
  {
    var field, direction := Get(params, "sortField"), Get(params, "sortDirection");
    QueryOptions(
      Get(params, "priority"),
      Get(params, "status"),
      if Truthy(Get(params, "search")) then Get(params, "search") else None,
      if Truthy(field) && Truthy(direction) then Some(SortOption(field.value, direction.value)) else None)
  }

  /** A sort field without a direction is dropped, and the query then carries no sorts. */
  lemma FieldWithoutDirectionUnsorted(field: string)
    ensures QueryFor(OptionsFromParams([("sortField", field)])).sorts == None
  {
    var o := OptionsFromParams([("sortField", field)]);
    assert Get([("sortField", field)], "sortDirection") == None;
  }
}

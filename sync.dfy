/**
  How the pieces fit together: the dashboard's fetch parameters, read by the
  task list endpoint, become the query the view asks for; and after each edit
  the dashboard's local list holds what the database would read back.
 */
module Consistency {
  import opened Seqs
  import opened Text
  import opened Tasks
  import opened Notion
  import opened TasksRoute
  import opened Dashboard

  // ---------------------------------------------------------------------------
  // The fetch: dashboard -> query string -> endpoint -> query
  // ---------------------------------------------------------------------------

  /** The first value of a key in a concatenation: from the first part when it has the key. */
  lemma {:induction false} GetConcat(a: SearchParams, b: SearchParams, key: string)
    ensures Get(a + b, key) == if Get(a, key).Some? then Get(a, key) else Get(b, key)
    decreases |a|
  {
    if a == [] {
      assert a + b == b;
    } else {
      assert (a + b)[0] == a[0];
      assert (a + b)[1..] == a[1..] + b;
      GetConcat(a[1..], b, key);
    }
  }

  /** The options the view's filter, search text and sort selection stand for. */
  function ViewOptions(filter: FilterState, search: string, sort: SortState): QueryOptions {
    QueryOptions(
      match filter.priority case Some(p) => Some(PriorityName(p)) case None => None,
      match filter.status case Some(s) => Some(StatusName(s)) case None => None,
      if search == "" then None else Some(search),
      match sort.field
      case Some(f) => Some(SortOption(SortFieldName(f), DirectionName(Pick(sort.direction, Ascending))))
      case None => None)
  }

  lemma GetSingle(k: string, v: string, key: string)
    ensures Get([(k, v)], key) == if k == key then Some(v) else None
  {
    if k == key {
      assert [(k, v)][0] == (key, v);
    }
  }

  lemma ParamsParts(filter: FilterState, search: string, sort: SortState, key: string)
    ensures var a, b, c, d := PriorityPart(filter), StatusPart(filter), SearchPart(search), SortPart(sort);
            Get(ParamsFor(filter, search, sort), key)
            == if Get(a, key).Some? then Get(a, key)
               else if Get(b, key).Some? then Get(b, key)
               else if Get(c, key).Some? then Get(c, key)
               else Get(d, key)
  {
    var a, b, c, d := PriorityPart(filter), StatusPart(filter), SearchPart(search), SortPart(sort);
    GetConcat(a + b + c, d, key);
    GetConcat(a + b, c, key);
    GetConcat(a, b, key);
  }

  lemma SortPartGet(sort: SortState, key: string)
    ensures sort.field.None? ==> Get(SortPart(sort), key) == None
    ensures sort.field.Some? && key == "sortField" ==> Get(SortPart(sort), key) == Some(SortFieldName(sort.field.value))
    ensures sort.field.Some? && key == "sortDirection" ==>
              Get(SortPart(sort), key) == Some(DirectionName(Pick(sort.direction, Ascending)))
    ensures key != "sortField" && key != "sortDirection" ==> Get(SortPart(sort), key) == None
  {
    if sort.field.Some? {
      var d := SortPart(sort);
      assert d == [d[0]] + [d[1]];
      GetConcat([d[0]], [d[1]], key);
      GetSingle(d[0].0, d[0].1, key);
      GetSingle(d[1].0, d[1].1, key);
    }
  }

  lemma GetPriorityParam(filter: FilterState, search: string, sort: SortState)
    ensures Get(ParamsFor(filter, search, sort), "priority") == ViewOptions(filter, search, sort).priority
  {
    ParamsParts(filter, search, sort, "priority");
    if filter.priority.Some? {
      GetSingle("priority", PriorityName(filter.priority.value), "priority");
    } else {
      if filter.status.Some? {
        GetSingle("status", StatusName(filter.status.value), "priority");
      }
      if search != "" {
        GetSingle("search", search, "priority");
      }
      SortPartGet(sort, "priority");
    }
  }

  lemma GetStatusParam(filter: FilterState, search: string, sort: SortState)
    ensures Get(ParamsFor(filter, search, sort), "status") == ViewOptions(filter, search, sort).status
  {
    ParamsParts(filter, search, sort, "status");
    if filter.priority.Some? {
      GetSingle("priority", PriorityName(filter.priority.value), "status");
    }
    if filter.status.Some? {
      GetSingle("status", StatusName(filter.status.value), "status");
    } else {
      if search != "" {
        GetSingle("search", search, "status");
      }
      SortPartGet(sort, "status");
    }
  }

  lemma GetSearchParam(filter: FilterState, search: string, sort: SortState)
    ensures Get(ParamsFor(filter, search, sort), "search") == ViewOptions(filter, search, sort).search
  {
    ParamsParts(filter, search, sort, "search");
    if filter.priority.Some? {
      GetSingle("priority", PriorityName(filter.priority.value), "search");
    }
    if filter.status.Some? {
      GetSingle("status", StatusName(filter.status.value), "search");
    }
    if search != "" {
      GetSingle("search", search, "search");
    } else {
      SortPartGet(sort, "search");
    }
  }

  lemma GetSortParams(filter: FilterState, search: string, sort: SortState)
    ensures sort.field.None? ==> Get(ParamsFor(filter, search, sort), "sortField") == None
    ensures sort.field.Some? ==> Get(ParamsFor(filter, search, sort), "sortField") == Some(SortFieldName(sort.field.value))
    ensures sort.field.Some? ==> Get(ParamsFor(filter, search, sort), "sortDirection") == Some(DirectionName(Pick(sort.direction, Ascending)))
  {
    ParamsParts(filter, search, sort, "sortField");
    ParamsParts(filter, search, sort, "sortDirection");
    if filter.priority.Some? {
      GetSingle("priority", PriorityName(filter.priority.value), "sortField");
      GetSingle("priority", PriorityName(filter.priority.value), "sortDirection");
    }
    if filter.status.Some? {
      GetSingle("status", StatusName(filter.status.value), "sortField");
      GetSingle("status", StatusName(filter.status.value), "sortDirection");
    }
    if search != "" {
      GetSingle("search", search, "sortField");
      GetSingle("search", search, "sortDirection");
    }
    SortPartGet(sort, "sortField");
    SortPartGet(sort, "sortDirection");
  }

  /** The endpoint reads back from the fetch's query string exactly the options the view holds. */
  lemma FetchParamsRoundTrip(filter: FilterState, search: string, sort: SortState)
    ensures OptionsFromParams(ParamsFor(filter, search, sort)) == ViewOptions(filter, search, sort)
  {
    GetPriorityParam(filter, search, sort);
    GetStatusParam(filter, search, sort);
    GetSearchParam(filter, search, sort);
    GetSortParams(filter, search, sort);
    OptionsFromGets(ParamsFor(filter, search, sort), ViewOptions(filter, search, sort));
  }

  /** The endpoint's options are determined by what `get` reads for each of the five keys. */
  lemma OptionsFromGets(params: SearchParams, o: QueryOptions)
    requires Get(params, "priority") == o.priority && Get(params, "status") == o.status
    requires Get(params, "search") == o.search && o.search != Some("")
    requires o.sort.None? ==> Get(params, "sortField") == None
    requires o.sort.Some? ==> && Get(params, "sortField") == Some(o.sort.value.field) && o.sort.value.field != ""
                              && Get(params, "sortDirection") == Some(o.sort.value.direction) && o.sort.value.direction != ""
    ensures OptionsFromParams(params) == o
  {
  }

  /** What the view asks of a page: its filter's names, its search text in the title or description. */
  ghost predicate ViewWants(filter: FilterState, search: string, page: Page) {
    var props := page.properties;
    && (filter.priority.Some? ==> SelectName(props, PriorityProp) == Some(PriorityName(filter.priority.value)))
    && (filter.status.Some? ==> SelectName(props, StatusProp) == Some(StatusName(filter.status.value)))
    && (search != "" ==>
          || (PropText(props, TitleProp).Some? && Contains(PropText(props, TitleProp).value, Lower(search)))
          || (PropText(props, DescriptionProp).Some? && Contains(PropText(props, DescriptionProp).value, Lower(search))))
  }

  /** The view's options ask of a page what the view asks of it. */
  lemma ViewOptionsWanted(filter: FilterState, search: string, sort: SortState, page: Page)
    ensures Wanted(ViewOptions(filter, search, sort), page) <==> ViewWants(filter, search, page)
  {
    if filter.priority.Some? {
      assert PriorityName(filter.priority.value) != "";
    }
    if filter.status.Some? {
      assert StatusName(filter.status.value) != "";
    }
  }

  /** The query the endpoint sends selects exactly the pages the view asks for. */
  lemma FetchSelectsWanted(filter: FilterState, search: string, sort: SortState, page: Page)
    ensures Selects(QueryFor(OptionsFromParams(ParamsFor(filter, search, sort))).filter, page)
            <==> ViewWants(filter, search, page)
  {
    FetchParamsRoundTrip(filter, search, sort);
    QuerySelectsWanted(ViewOptions(filter, search, sort), page);
    ViewOptionsWanted(filter, search, sort, page);
  }

  /** The query the endpoint sends sorts by the chosen field and direction, or not at all. */
  lemma FetchSortsChosen(filter: FilterState, search: string, sort: SortState)
    ensures var q := QueryFor(OptionsFromParams(ParamsFor(filter, search, sort)));
            && (sort.field.None? ==> q.sorts == None)
            && (sort.field.Some? ==> q.sorts.Some? && |q.sorts.value| == 1
                                     && PropKey(q.sorts.value[0].prop) == SortFieldName(sort.field.value)
                                     && q.sorts.value[0].direction == DirectionName(Pick(sort.direction, Ascending)))
  {
    FetchParamsRoundTrip(filter, search, sort);
    if sort.field.Some? {
      assert SortProp(SortFieldName(sort.field.value)).Some?;
    }
  }

  // ---------------------------------------------------------------------------
  // Local list against the database
  // ---------------------------------------------------------------------------

  /** After an edit, the local task is what the edited page reads back as. */
  lemma EditAgrees(page: Page, input: InputPatch)
    ensures AfterUpdate([PageToTask(page)], page.id, input)
            == [PageToTask(Page(page.id, page.properties + UpdatePayload(input)))]
  {
    UpdateRoundTrip(page, input);
  }

  /** After a create, the appended task is what the new page reads back as. */
  lemma CreateAgrees(tasks: seq<Task>, input: CreateTaskInput, id: string)
    ensures AfterAdd(tasks, CreatedTask(input, id)) == tasks + [PageToTask(Page(id, CreateProperties(input)))]
  {
    CreateRoundTrip(input, id);
  }

  /**
    After a progress update as written, the local task keeps its status while
    the page reads back with the status derived from the progress: a To Do task
    set to 100 stays To Do locally but is Done in the database.
   */
  lemma ProgressStatusDrifts(page: Page)
    requires PageToTask(page).status == ToDo
    ensures AfterProgress([PageToTask(page)], page.id, 100)[0].status == ToDo
    ensures PageToTask(Page(page.id, page.properties + ProgressProperties(100))).status == Done
  {
    ProgressRoundTrip(page, 100);
  }

  function SetProgressAndStatus(progress: int): Task -> Task {
    (t: Task) => t.(progress := progress, status := StatusFromProgress(progress))
  }

  /** The local progress update with the status derived as the database derives it. */
  function AfterProgressSynced(tasks: seq<Task>, id: string, progress: int): (r: seq<Task>)
    ensures |r| == |tasks|
    ensures forall i :: 0 <= i < |tasks| && tasks[i].id != id ==> r[i] == tasks[i]
    ensures forall i :: 0 <= i < |tasks| && tasks[i].id == id ==> r[i].progress == progress && r[i].status == StatusFromProgress(progress)
  {
    UpdateWhere(tasks, id, SetProgressAndStatus(progress))
  }

  /** With the derived status, the local task is what the page reads back as. */
  lemma ProgressSyncedAgrees(page: Page, progress: int)
    ensures AfterProgressSynced([PageToTask(page)], page.id, progress)
            == [PageToTask(Page(page.id, page.properties + ProgressProperties(progress)))]
  {
    ProgressRoundTrip(page, progress);
  }
}

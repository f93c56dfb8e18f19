/**
  The pure half of the task database adapter (lib/notion.ts): how a page of the
  database becomes a task, which properties the create, update and progress
  requests send, and how a filter/sort request is turned into a database query.
  The requests themselves are not modelled; a query is a value here.
 */
module Notion {
  import opened Seqs
  import opened Text
  import opened Tasks

  // ---------------------------------------------------------------------------
  // Pages
  // ---------------------------------------------------------------------------

  /** The seven properties of the task database. */
  datatype PropName = TitleProp | DescriptionProp | PriorityProp | StatusProp | DeadlineProp | TagsProp | ProgressProp

  /** The property names as the database spells them. */
  function PropKey(p: PropName): string {
    match p
    case TitleProp => "title"
    case DescriptionProp => "description"
    case PriorityProp => "priority"
    case StatusProp => "status"
    case DeadlineProp => "deadline"
    case TagsProp => "tags"
    case ProgressProp => "progress"
  }

  /**
    The value of a page property, by its type: the plain text of each fragment of
    a title or rich text, the option name of a select (`None` when unset), the
    start of a date, the names of a multi-select, and a number.
   */
  datatype PropValue =
    | TitleValue(fragments: seq<string>)
    | RichTextValue(fragments: seq<string>)
    | SelectValue(option: Option<string>)
    | DateValue(start: Option<string>)
    | MultiSelectValue(names: seq<string>)
    | NumberValue(number: Option<int>)

  type Properties = map<PropName, PropValue>

  datatype Page = Page(id: string, properties: Properties)

  /** `x || fallback` on a string: the empty string is falsy. */
  function OrDefault(x: Option<string>, fallback: string): (r: string)
    ensures x.Some? && x.value != "" ==> r == x.value
    ensures x.None? || x.value == "" ==> r == fallback
  {
    if x.Some? && x.value != "" then x.value else fallback
  }

  /** `fragments[0]?.plain_text`. */
  function FirstFragment(fragments: seq<string>): Option<string> {
    if fragments == [] then None else Some(fragments[0])
  }

  function TitleText(props: Properties): Option<string> {
    if TitleProp in props && props[TitleProp].TitleValue? then FirstFragment(props[TitleProp].fragments) else None
  }

  function DescriptionText(props: Properties): Option<string> {
    if DescriptionProp in props && props[DescriptionProp].RichTextValue? then FirstFragment(props[DescriptionProp].fragments) else None
  }

  /** The option name of a select property, when it is set. */
  function SelectName(props: Properties, p: PropName): Option<string> {
    if p in props && props[p].SelectValue? then props[p].option else None
  }

  function DeadlineText(props: Properties): Option<string> {
    if DeadlineProp in props && props[DeadlineProp].DateValue? then props[DeadlineProp].start else None
  }

  function TagNames(props: Properties): Option<seq<string>> {
    if TagsProp in props && props[TagsProp].MultiSelectValue? then Some(props[TagsProp].names) else None
  }

  function ProgressNumber(props: Properties): Option<int> {
    if ProgressProp in props && props[ProgressProp].NumberValue? then props[ProgressProp].number else None
  }

  /** The status a select name denotes, if any. */
  function StatusFromName(name: string): (r: Option<Status>)
    ensures r.Some? ==> StatusName(r.value) == name
  {
    if name == "To Do" then Some(ToDo)
    else if name == "In Progress" then Some(InProgress)
    else if name == "Done" then Some(Done)
    else None
  }

  lemma StatusNameRoundTrip(s: Status)
    ensures StatusFromName(StatusName(s)) == Some(s)
  {
  }

  /** `select?.name || fallback`, read as a priority. */
  function PriorityOf(props: Properties): (r: Priority)
    ensures SelectName(props, PriorityProp) == None ==> r == Low
  {
    match PriorityFromName(OrDefault(SelectName(props, PriorityProp), "Low"))
    case Some(p) => p
    case None => Low
  }

  /** `select?.name || fallback`, read as a status. */
  function StatusOf(props: Properties): (r: Status)
    ensures SelectName(props, StatusProp) == None ==> r == ToDo
  {
    match StatusFromName(OrDefault(SelectName(props, StatusProp), "To Do"))
    case Some(s) => s
    case None => ToDo
  }

  /**
    A page as a task: each field read from its property, with '' for a missing
    title, description or deadline, Low for a missing priority, To Do for a
    missing status, no tags and progress 0.
   */
  function PageToTask(page: Page): (t: Task)
    ensures t.id == page.id && t.createdAt == None && t.updatedAt == None
    ensures TitleText(page.properties) == None ==> t.title == ""
    ensures DescriptionText(page.properties) == None ==> t.description == ""
    ensures DeadlineText(page.properties) == None ==> t.deadline == ""
    ensures TagNames(page.properties) == None ==> t.tags == []
    ensures ProgressNumber(page.properties) == None ==> t.progress == 0
    ensures page.properties == map[] ==> t == Task(page.id, "", "", Low, ToDo, "", [], 0, None, None)
  {
    var props := page.properties;
    Task(
      page.id,
      OrDefault(TitleText(props), ""),
      OrDefault(DescriptionText(props), ""),
      PriorityOf(props),
      StatusOf(props),
      OrDefault(DeadlineText(props), ""),
      match TagNames(props) case Some(names) => names case None => [],
      match ProgressNumber(props) case Some(n) => n case None => 0,
      None,
      None)
  }

  /** The result of a query: every page as a task, in the order the database returned them. */
  function TasksFromPages(pages: seq<Page>): (r: seq<Task>)
    ensures |r| == |pages|
    ensures forall i :: 0 <= i < |pages| ==> r[i] == PageToTask(pages[i]) && r[i].id == pages[i].id
  {
    Map(pages, PageToTask)
  }

  // ---------------------------------------------------------------------------
  // Create, progress and update requests
  // ---------------------------------------------------------------------------

  function TitleProperty(title: string): PropValue {
    TitleValue([title])
  }

  function DescriptionProperty(description: string): PropValue {
    RichTextValue([description])
  }

  function PriorityProperty(p: Priority): PropValue {
    SelectValue(Some(PriorityName(p)))
  }

  function DeadlineProperty(deadline: string): PropValue {
    DateValue(Some(deadline))
  }

  function TagsProperty(tags: seq<string>): PropValue {
    MultiSelectValue(tags)
  }

  /** The properties `createTask` sends: the input, status To Do and progress 0. */
  function CreateProperties(input: CreateTaskInput): (r: Properties)
    ensures r.Keys == {TitleProp, DescriptionProp, PriorityProp, StatusProp, DeadlineProp, TagsProp, ProgressProp}
    ensures r[StatusProp] == SelectValue(Some("To Do")) && r[ProgressProp] == NumberValue(Some(0))
  {
    map[TitleProp := TitleProperty(input.title),
        DescriptionProp := DescriptionProperty(input.description),
        PriorityProp := PriorityProperty(input.priority),
        StatusProp := SelectValue(Some(StatusName(ToDo))),
        DeadlineProp := DeadlineProperty(input.deadline),
        TagsProp := TagsProperty(input.tags),
        ProgressProp := NumberValue(Some(0))]
  }

  /** The task `createTask` returns: the new page's id, the input, status To Do and progress 0. */
  function CreatedTask(input: CreateTaskInput, id: string): (t: Task)
    ensures t.id == id && t.status == ToDo && t.progress == 0
    ensures t.title == input.title && t.description == input.description && t.priority == input.priority
    ensures t.deadline == input.deadline && t.tags == input.tags
  {
    Task(id, input.title, input.description, input.priority, ToDo, input.deadline, input.tags, 0, None, None)
  }

  /** Reading back the page `createTask` creates gives the task it returns. */
  lemma CreateRoundTrip(input: CreateTaskInput, id: string)
    ensures PageToTask(Page(id, CreateProperties(input))) == CreatedTask(input, id)
  {
    PriorityNameRoundTrip(input.priority);
  }

  /** The status `updateTaskProgress` derives: Done at exactly 100, In Progress above 0, else To Do. */
  function StatusFromProgress(progress: int): (s: Status)
    ensures s == Done <==> progress == 100
    ensures s == InProgress <==> progress > 0 && progress != 100
    ensures s == ToDo <==> progress <= 0
  {
    if progress == 100 then Done else if progress > 0 then InProgress else ToDo
  }

  /** Progress above 100 is not clamped and reads as In Progress. */
  lemma StatusAbove100()
    ensures StatusFromProgress(150) == InProgress
  {
  }

  /** The properties `updateTaskProgress` sends. */
  function ProgressProperties(progress: int): (r: Properties)
    ensures r.Keys == {ProgressProp, StatusProp}
  {
    map[ProgressProp := NumberValue(Some(progress)),
        StatusProp := SelectValue(Some(StatusName(StatusFromProgress(progress))))]
  }

  /** After a progress update the page reads back with that progress and its derived status, nothing else changed. */
  lemma ProgressRoundTrip(page: Page, progress: int)
    ensures var t := PageToTask(Page(page.id, page.properties + ProgressProperties(progress)));
            && t.progress == progress
            && t.status == StatusFromProgress(progress)
            && t == PageToTask(page).(progress := progress, status := StatusFromProgress(progress))
  {
    StatusNameRoundTrip(StatusFromProgress(progress));
  }

  /**
    The properties `updateTask` sends: one for each field the partial input
    defines, never the status or the progress.
   */
  function UpdatePayload(input: InputPatch): (r: Properties)
    ensures StatusProp !in r && ProgressProp !in r
    ensures input == InputPatch(None, None, None, None, None) ==> r == map[]
  {
    var r0: Properties := map[];
    var r1 := Put(r0, TitleProp, Sent(input, TitleProp));
    var r2 := Put(r1, DescriptionProp, Sent(input, DescriptionProp));
    var r3 := Put(r2, PriorityProp, Sent(input, PriorityProp));
    var r4 := Put(r3, DeadlineProp, Sent(input, DeadlineProp));
    Put(r4, TagsProp, Sent(input, TagsProp))
  }

  /** The property `updateTask` sends under `p`, if the input defines that field. */
  function Sent(input: InputPatch, p: PropName): Option<PropValue> {
    match p
    case TitleProp => if input.title.Some? then Some(TitleProperty(input.title.value)) else None
    case DescriptionProp => if input.description.Some? then Some(DescriptionProperty(input.description.value)) else None
    case PriorityProp => if input.priority.Some? then Some(PriorityProperty(input.priority.value)) else None
    case DeadlineProp => if input.deadline.Some? then Some(DeadlineProperty(input.deadline.value)) else None
    case TagsProp => if input.tags.Some? then Some(TagsProperty(input.tags.value)) else None
    case StatusProp => None
    case ProgressProp => None
  }

  /** `properties.p = v` when there is a `v`. */
  function Put(props: Properties, p: PropName, v: Option<PropValue>): Properties {
    if v.Some? then props[p := v.value] else props
  }

  /**
    The payload holds a property exactly for each field the input defines, and
    that property carries the field's value.
   */
  lemma UpdatePayloadAt(input: InputPatch, p: PropName)
    ensures p in UpdatePayload(input) <==> Sent(input, p).Some?
    ensures p in UpdatePayload(input) ==> UpdatePayload(input)[p] == Sent(input, p).value
  {
  }

  /** `updateTask` assembling its properties one defined field at a time. */
  method BuildUpdatePayload(input: InputPatch) returns (properties: Properties)
    ensures properties == UpdatePayload(input)
  {
    properties := map[];
    if input.title != None {
      properties := properties[TitleProp := TitleProperty(input.title.value)];
    }
    if input.description != None {
      properties := properties[DescriptionProp := DescriptionProperty(input.description.value)];
    }
    if input.priority != None {
      properties := properties[PriorityProp := PriorityProperty(input.priority.value)];
    }
    if input.deadline != None {
      properties := properties[DeadlineProp := DeadlineProperty(input.deadline.value)];
    }
    if input.tags != None {
      properties := properties[TagsProp := TagsProperty(input.tags.value)];
    }
  }

  /** What each reader sees on a page after an update: the sent value where one was sent. */
  lemma UpdatedReads(before: Properties, input: InputPatch)
    ensures var after := before + UpdatePayload(input);
            && TitleText(after) == (if input.title.Some? then Some(input.title.value) else TitleText(before))
            && DescriptionText(after) == (if input.description.Some? then Some(input.description.value) else DescriptionText(before))
            && DeadlineText(after) == (if input.deadline.Some? then Some(input.deadline.value) else DeadlineText(before))
            && TagNames(after) == (if input.tags.Some? then Some(input.tags.value) else TagNames(before))
  {
    UpdatePayloadAt(input, TitleProp);
    UpdatePayloadAt(input, DescriptionProp);
    UpdatePayloadAt(input, DeadlineProp);
    UpdatePayloadAt(input, TagsProp);
  }

  lemma UpdatedSelects(before: Properties, input: InputPatch)
    ensures var after := before + UpdatePayload(input);
            && SelectName(after, PriorityProp)
               == (if input.priority.Some? then Some(PriorityName(input.priority.value)) else SelectName(before, PriorityProp))
            && SelectName(after, StatusProp) == SelectName(before, StatusProp)
            && ProgressNumber(after) == ProgressNumber(before)
  {
    UpdatePayloadAt(input, PriorityProp);
  }

  /**
    After an update the page reads back as the task it held with the partial
    input spread over it: the remote edit agrees with the dashboard's local one.
   */
  lemma UpdateRoundTrip(page: Page, input: InputPatch)
    ensures PageToTask(Page(page.id, page.properties + UpdatePayload(input))) == ApplyInput(PageToTask(page), input)
  {
    UpdatedReads(page.properties, input);
    UpdatedSelects(page.properties, input);
    if input.priority.Some? {
      PriorityNameRoundTrip(input.priority.value);
    }
  }

  // ---------------------------------------------------------------------------
  // Queries
  // ---------------------------------------------------------------------------

  /** A leaf condition on a text property. */
  datatype Condition =
    | TitleContains(text: string)
    | RichTextContains(prop: PropName, text: string)

  /** One member of the `and` list of a filter. */
  datatype Clause =
    | SelectEquals(prop: PropName, name: string)
    | AnyOf(conditions: seq<Condition>)

  datatype SortSpec = SortSpec(prop: PropName, direction: string)

  /** A database query: `filter: {and: clauses}` and `sorts`, each omitted when `None`. */
  datatype Query = Query(filter: Option<seq<Clause>>, sorts: Option<seq<SortSpec>>)

  datatype SortOption = SortOption(field: string, direction: string)

  /** The options of `getFilteredTasks`, as the strings the caller passes. */
  datatype QueryOptions = QueryOptions(
    priority: Option<string>,
    status: Option<string>,
    search: Option<string>,
    sort: Option<SortOption>)

  /** JavaScript truthiness of an optional string. */
  predicate Truthy(x: Option<string>) {
    x.Some? && x.value != ""
  }

  /** The search clause: the title or the description contains the lower-cased text. */
  function SearchClause(search: string): Clause {
    AnyOf([TitleContains(Lower(search)), RichTextContains(DescriptionProp, Lower(search))])
  }

  /** The property a sort field names, if it is one of the three sortable ones. */
  function SortProp(field: string): (r: Option<PropName>)
    ensures r.Some? ==> PropKey(r.value) == field
    ensures r.None? <==> field != "priority" && field != "deadline" && field != "progress"
  {
    if field == "priority" then Some(PriorityProp)
    else if field == "deadline" then Some(DeadlineProp)
    else if field == "progress" then Some(ProgressProp)
    else None
  }

  /** The filter clauses, in the order priority, status, search. */
  function Clauses(opts: QueryOptions): seq<Clause> {
    (if Truthy(opts.priority) then [SelectEquals(PriorityProp, opts.priority.value)] else [])
    + (if Truthy(opts.status) then [SelectEquals(StatusProp, opts.status.value)] else [])
    + (if Truthy(opts.search) then [SearchClause(opts.search.value)] else [])
  }

  function SortList(opts: QueryOptions): seq<SortSpec> {
    if opts.sort.Some? && SortProp(opts.sort.value.field).Some?
    then [SortSpec(SortProp(opts.sort.value.field).value, opts.sort.value.direction)]
    else []
  }

  /** The query `getFilteredTasks` sends: the filter and the sorts, each omitted when empty. */
  function QueryFor(opts: QueryOptions): (q: Query)
    ensures q.filter.None? <==> !Truthy(opts.priority) && !Truthy(opts.status) && !Truthy(opts.search)
    ensures q.filter.Some? ==> q.filter.value != []
    ensures q.sorts.Some? ==> |q.sorts.value| == 1
    ensures q.sorts.None? <==> opts.sort.None? || SortProp(opts.sort.value.field).None?
    ensures q.sorts.Some? ==> PropKey(q.sorts.value[0].prop) == opts.sort.value.field
                              && q.sorts.value[0].direction == opts.sort.value.direction
  {
    var clauses, sorts := Clauses(opts), SortList(opts);
    Query(if |clauses| > 0 then Some(clauses) else None, if |sorts| > 0 then Some(sorts) else None)
  }

  /**
    The filter holds one clause per truthy option, in the order priority, status,
    search: a select equality for the priority and the status, the title-or-description
    search last.
   */
  lemma QueryClauses(opts: QueryOptions)
    ensures var q := QueryFor(opts);
            var np, ns := if Truthy(opts.priority) then 1 else 0, if Truthy(opts.status) then 1 else 0;
            var n := np + ns + if Truthy(opts.search) then 1 else 0;
            && (q.filter.Some? ==> |q.filter.value| == n)
            && (Truthy(opts.priority) ==> q.filter.Some? && q.filter.value[0] == SelectEquals(PriorityProp, opts.priority.value))
            && (Truthy(opts.status) ==> q.filter.Some? && q.filter.value[np] == SelectEquals(StatusProp, opts.status.value))
            && (Truthy(opts.search) ==> q.filter.Some? && q.filter.value[n - 1] == SearchClause(opts.search.value))
  {
  }

  /** `getFilteredTasks` pushing clauses onto `filter.and` and entries onto `sorts`, one at a time. */
  method BuildQuery(opts: QueryOptions) returns (q: Query)
    ensures q == QueryFor(opts)
  {
    var and: seq<Clause> := [];
    if Truthy(opts.priority) {
      and := and + [SelectEquals(PriorityProp, opts.priority.value)];
    }
    ghost var a1 := and;
    if Truthy(opts.status) {
      and := and + [SelectEquals(StatusProp, opts.status.value)];
    }
    ghost var a2 := and;
    assert a2 == a1 + (if Truthy(opts.status) then [SelectEquals(StatusProp, opts.status.value)] else []);
    if Truthy(opts.search) {
      and := and + [SearchClause(opts.search.value)];
    }
    assert and == a2 + (if Truthy(opts.search) then [SearchClause(opts.search.value)] else []);
    assert and == Clauses(opts);
    var sorts: seq<SortSpec> := [];
    if opts.sort.Some? {
      var field := opts.sort.value.field;
      if field == "priority" {
        sorts := sorts + [SortSpec(PriorityProp, opts.sort.value.direction)];
      } else if field == "deadline" {
        sorts := sorts + [SortSpec(DeadlineProp, opts.sort.value.direction)];
      } else if field == "progress" {
        sorts := sorts + [SortSpec(ProgressProp, opts.sort.value.direction)];
      }
    }
    assert sorts == SortList(opts);
    q := Query(if |and| > 0 then Some(and) else None, if |sorts| > 0 then Some(sorts) else None);
  }

  /** `getTasks` sends the query `getFilteredTasks` sends for a deadline-ascending sort and no filter. */
  const AllTasksQuery: Query := Query(None, Some([SortSpec(DeadlineProp, "ascending")]))

  lemma AllTasksIsUnfiltered()
    ensures QueryFor(QueryOptions(None, None, None, Some(SortOption("deadline", "ascending")))) == AllTasksQuery
  {
  }

  // ---------------------------------------------------------------------------
  // What a query selects
  // ---------------------------------------------------------------------------

  /** The whole text of a title or rich-text property (its fragments run together). */
  function PropText(props: Properties, p: PropName): Option<string> {
    if p in props && (props[p].TitleValue? || props[p].RichTextValue?) then Some(Join(props[p].fragments, "")) else None
  }

  ghost predicate ConditionHolds(c: Condition, props: Properties) {
    match c
    case TitleContains(text) => PropText(props, TitleProp).Some? && Contains(PropText(props, TitleProp).value, text)
    case RichTextContains(p, text) => PropText(props, p).Some? && Contains(PropText(props, p).value, text)
  }

  ghost predicate ClauseHolds(c: Clause, props: Properties) {
    match c
    case SelectEquals(p, name) => SelectName(props, p) == Some(name)
    case AnyOf(conditions) => exists i :: 0 <= i < |conditions| && ConditionHolds(conditions[i], props)
  }

  /** The pages a filter keeps: all of them without a filter, else those meeting every clause. */
  ghost predicate Selects(filter: Option<seq<Clause>>, page: Page) {
    filter.Some? ==> forall i :: 0 <= i < |filter.value| ==> ClauseHolds(filter.value[i], page.properties)
  }

  /**
    What the options ask for, read directly: the priority and status selects
    equal the requested names, and the title or the description contains the
    lower-cased search text, each only when the option is set and non-empty.
    Containment is read literally; the database's own case handling is not modelled.
   */
  ghost predicate Wanted(opts: QueryOptions, page: Page) {
    var props := page.properties;
    && (Truthy(opts.priority) ==> SelectName(props, PriorityProp) == opts.priority)
    && (Truthy(opts.status) ==> SelectName(props, StatusProp) == opts.status)
    && (Truthy(opts.search) ==>
          || (PropText(props, TitleProp).Some? && Contains(PropText(props, TitleProp).value, Lower(opts.search.value)))
          || (PropText(props, DescriptionProp).Some? && Contains(PropText(props, DescriptionProp).value, Lower(opts.search.value))))
  }

  /** The query selects exactly the pages the options ask for. */
  lemma QuerySelectsWanted(opts: QueryOptions, page: Page)
    ensures Selects(QueryFor(opts).filter, page) <==> Wanted(opts, page)
  {
    var cs := Clauses(opts);
    var props := page.properties;
    var k := 0;
    if Truthy(opts.priority) {
      assert cs[k] == SelectEquals(PriorityProp, opts.priority.value);
      k := k + 1;
    }
    if Truthy(opts.status) {
      assert cs[k] == SelectEquals(StatusProp, opts.status.value);
      k := k + 1;
    }
    if Truthy(opts.search) {
      var c := SearchClause(opts.search.value);
      assert cs[k] == c;
      assert ClauseHolds(c, props) <==> ConditionHolds(c.conditions[0], props) || ConditionHolds(c.conditions[1], props);
    }
  }
}

/**
 * `ProjectService.findProjectsWithRelations`: the aggregation pipeline it
 * builds, what the aggregation engine does with each stage, and what the
 * pipeline as a whole returns.
 */
module Projects {
  import opened Wrappers
  import opened Mongo
  import opened Todos
  import opened SubTodos

  datatype Project = Project(id: nat, name: string, kind: Authoring, createdAt: int, updatedAt: int)

  /** The document the query engine sees for a project. */
  function ProjectDoc(p: Project): Document {
    map[
      Id := ObjectId(p.id),
      Name := Str(p.name),
      Kind := Str(AuthoringName(p.kind)),
      CreatedAt := Date(p.createdAt),
      UpdatedAt := Date(p.updatedAt)
    ]
  }

  /** The three optional queries; `None` stands for a missing one. */
  datatype RelationsFilter = RelationsFilter(project: Option<Query>, todo: Option<Query>, subTodo: Option<Query>)

  /** `x && Object.keys(x).length > 0` */
  predicate HasKeys(x: Option<Query>) {
    x.Some? && |x.value| > 0
  }

  // ---------------------------------------------------------------------------
  // The pipeline as data.

  /** A stage of the todos `$lookup` sub-pipeline. */
  datatype TodoStage =
    | SameProject          // { $match: { $expr: { $eq: ["$projectId", "$$projectId"] } } }
    | TodoMatch(query: Query)

  /** A stage of the subtodos `$lookup` sub-pipeline. */
  datatype SubTodoStage =
    | UnderJoinedTodo      // { $match: { $expr: { $in: ["$parentId", "$$todoIds"] } } }
    | SubTodoMatch(query: Query)

  datatype Stage =
    | Match(query: Query)
    | LookupTodos(todoStages: seq<TodoStage>)            // as: "todos", let projectId = $_id
    | LookupSubTodos(subTodoStages: seq<SubTodoStage>)   // as: "subTodos", let todoIds = $todos._id
    | KeepLinked                                         // { $match: { $or: [todos ≠ [], subTodos ≠ []] } }

  /** The todos sub-pipeline: the ownership test, then the todo query when it has keys. */
  function TodoStages(f: RelationsFilter): seq<TodoStage> {
    [SameProject] + (if HasKeys(f.todo) then [TodoMatch(f.todo.value)] else [])
  }

  /** The subtodos sub-pipeline: the parent test, then the subtodo query when it has keys. */
  function SubTodoStages(f: RelationsFilter): seq<SubTodoStage> {
    [UnderJoinedTodo] + (if HasKeys(f.subTodo) then [SubTodoMatch(f.subTodo.value)] else [])
  }

  /** The three stages every pipeline ends with. */
  function Joins(f: RelationsFilter): seq<Stage> {
    [LookupTodos(TodoStages(f)), LookupSubTodos(SubTodoStages(f)), KeepLinked]
  }

  /** The stages in the order `findProjectsWithRelations` pushes them. */
  function Pipeline(f: RelationsFilter): (p: seq<Stage>)
    ensures |p| >= 3 && p[|p| - 3..] == Joins(f)
    ensures |p| == 4 <==> HasKeys(f.project)
    ensures |p| == 4 ==> p[0] == Match(f.project.value)
  {
    (if HasKeys(f.project) then [Match(f.project.value)] else []) + Joins(f)
  }

  /**
   * The pipeline's shape: a leading `$match` exactly when the project query
   * has keys, then the two joins (each with its extra `$match` exactly when
   * that query has keys), then the final filter.
   */
  lemma PipelineShape(f: RelationsFilter)
    ensures var p := Pipeline(f);
      && |p| == (if HasKeys(f.project) then 4 else 3)
      && (p[0].Match? <==> HasKeys(f.project))
      && (HasKeys(f.project) ==> p[0] == Match(f.project.value))
      && p[|p| - 3].LookupTodos? && p[|p| - 2].LookupSubTodos? && p[|p| - 1] == KeepLinked
      && (|p[|p| - 3].todoStages| == 2 <==> HasKeys(f.todo))
      && (|p[|p| - 2].subTodoStages| == 2 <==> HasKeys(f.subTodo))
      && (forall i :: 0 < i < |p| ==> !p[i].Match?)
  {
  }

  // ---------------------------------------------------------------------------
  // What the aggregation engine does with the stages.

  /** A project with the arrays the lookups attach (empty before they run). */
  datatype Row = Row(project: Project, todos: seq<Todo>, subTodos: seq<SubTodo>)

  /** The other collections the lookups read, and the server's regex engine. */
  datatype Store = Store(todos: seq<Todo>, subTodos: seq<SubTodo>, regex: RegexEngine)

  /** The todos whose `projectId` equals `pid`, in stored order. */
  function Owned(ts: seq<Todo>, pid: nat): (r: seq<Todo>)
    ensures forall t :: t in r <==> t in ts && t.projectId == Some(pid)
  {
    if ts == [] then []
    else (if ts[0].projectId == Some(pid) then [ts[0]] else []) + Owned(ts[1..], pid)
  }

  /** `"$todos._id"`: the ids of the joined todos. */
  function TodoIds(ts: seq<Todo>): (ids: seq<nat>)
    ensures |ids| == |ts|
    ensures forall i :: 0 <= i < |ts| ==> ids[i] == ts[i].id
  {
    if ts == [] then [] else [ts[0].id] + TodoIds(ts[1..])
  }

  /** The subtodos whose `parentId` is one of `ids`, in stored order. */
  function Under(ss: seq<SubTodo>, ids: seq<nat>): (r: seq<SubTodo>)
    ensures forall s :: s in r <==> s in ss && s.parentId in ids
  {
    if ss == [] then []
    else (if ss[0].parentId in ids then [ss[0]] else []) + Under(ss[1..], ids)
  }

  function RunTodoStages(stages: seq<TodoStage>, ts: seq<Todo>, pid: nat, regex: RegexEngine): seq<Todo> {
    if stages == [] then ts
    else
      var next := match stages[0]
        case SameProject => Owned(ts, pid)
        case TodoMatch(q) => Selected(ts, q, TodoDoc, regex);
      RunTodoStages(stages[1..], next, pid, regex)
  }

  function RunSubTodoStages(stages: seq<SubTodoStage>, ss: seq<SubTodo>, ids: seq<nat>, regex: RegexEngine)
    : seq<SubTodo>
  {
    if stages == [] then ss
    else
      var next := match stages[0]
        case UnderJoinedTodo => Under(ss, ids)
        case SubTodoMatch(q) => Selected(ss, q, SubTodoDoc, regex);
      RunSubTodoStages(stages[1..], next, ids, regex)
  }

  /** One stage applied to one row: the rows it becomes (none or one). */
  function StepRow(st: Stage, r: Row, store: Store): (out: seq<Row>)
    ensures |out| <= 1
    ensures st.LookupTodos? || st.LookupSubTodos? ==> |out| == 1
    ensures forall x :: x in out ==> x.project == r.project
  {
    match st
    case Match(q) => if Matches(q, ProjectDoc(r.project), store.regex) then [r] else []
    case LookupTodos(sub) => [r.(todos := RunTodoStages(sub, store.todos, r.project.id, store.regex))]
    case LookupSubTodos(sub) => [r.(subTodos := RunSubTodoStages(sub, store.subTodos, TodoIds(r.todos), store.regex))]
    case KeepLinked => if r.todos != [] || r.subTodos != [] then [r] else []
  }

  /** One stage applied to the whole stream of rows, in order. */
  function Step(st: Stage, rows: seq<Row>, store: Store): (out: seq<Row>)
    ensures |out| <= |rows|
    ensures st.LookupTodos? || st.LookupSubTodos? ==> |out| == |rows|
  {
    if rows == [] then [] else StepRow(st, rows[0], store) + Step(st, rows[1..], store)
  }

  /** `aggregate(pipeline)` over the given rows. */
  function Aggregate(stages: seq<Stage>, rows: seq<Row>, store: Store): (out: seq<Row>)
    ensures |out| <= |rows|
  {
    if stages == [] then rows else Aggregate(stages[1..], Step(stages[0], rows, store), store)
  }

  /** The rows the aggregation starts from: the stored projects, in order. */
  function Initial(projects: seq<Project>): (rows: seq<Row>)
    ensures |rows| == |projects|
  {
    if projects == [] then [] else [Row(projects[0], [], [])] + Initial(projects[1..])
  }

  // ---------------------------------------------------------------------------
  // What the pipeline means.

  /** A missing query, like `{}`, matches everything. */
  function OrAll(x: Option<Query>): Query {
    if x.Some? then x.value else []
  }

  /** A project with its own todos that pass the todo query, and their subtodos that pass the subtodo query. */
  function Related(f: RelationsFilter, p: Project, store: Store): (r: Row)
    ensures r.project == p
    ensures forall t :: t in r.todos <==>
      t in store.todos && t.projectId == Some(p.id) && Matches(OrAll(f.todo), TodoDoc(t), store.regex)
    ensures forall s :: s in r.subTodos <==>
      s in store.subTodos && s.parentId in TodoIds(r.todos) && Matches(OrAll(f.subTodo), SubTodoDoc(s), store.regex)
  {
    var owned := Owned(store.todos, p.id);
    var ts := Selected(owned, OrAll(f.todo), TodoDoc, store.regex);
    var under := Under(store.subTodos, TodoIds(ts));
    var ss := Selected(under, OrAll(f.subTodo), SubTodoDoc, store.regex);
    assert forall t :: t in ts <==> t in owned && Matches(OrAll(f.todo), TodoDoc(t), store.regex) by {
      forall t {
        SelectedMembers(owned, OrAll(f.todo), TodoDoc, store.regex, t);
      }
    }
    assert forall s :: s in ss <==> s in under && Matches(OrAll(f.subTodo), SubTodoDoc(s), store.regex) by {
      forall s {
        SelectedMembers(under, OrAll(f.subTodo), SubTodoDoc, store.regex, s);
      }
    }
    Row(p, ts, ss)
  }

  /**
   * The answer `findProjectsWithRelations` is meant to give: each project that
   * passes the project query, in stored order, with its related todos and
   * subtodos, when it has at least one todo or subtodo.
   */
  function WithRelations(f: RelationsFilter, projects: seq<Project>, store: Store): (out: seq<Row>)
    ensures |out| <= |projects|
    ensures forall x :: x in out ==>
      && x.project in projects
      && Matches(OrAll(f.project), ProjectDoc(x.project), store.regex)
      && x == Related(f, x.project, store)
      && (x.todos != [] || x.subTodos != [])
    decreases projects
  {
    if projects == [] then []
    else
      var r := Related(f, projects[0], store);
      (if Matches(OrAll(f.project), ProjectDoc(projects[0]), store.regex) && (r.todos != [] || r.subTodos != [])
       then [r] else [])
      + WithRelations(f, projects[1..], store)
  }

  lemma {:induction false} UnderNone(ss: seq<SubTodo>)
    ensures Under(ss, []) == []
    decreases ss
  {
    if ss != [] {
      UnderNone(ss[1..]);
    }
  }

  lemma {:induction false} SelectedEmpty<D>(q: Query, shape: D -> Document, regex: RegexEngine)
    ensures Selected([], q, shape, regex) == []
  {
  }

  /** Subtodos join through todo ids, so a project without todos has no subtodos either. */
  lemma SubTodosNeedTodos(f: RelationsFilter, p: Project, store: Store)
    ensures Related(f, p, store).subTodos != [] ==> Related(f, p, store).todos != []
  {
    var r := Related(f, p, store);
    if r.todos == [] {
      UnderNone(store.subTodos);
      SelectedEmpty(OrAll(f.subTodo), SubTodoDoc, store.regex);
    }
  }

  /** Every returned row has todos: the final filter's second alternative never decides. */
  lemma {:induction false} RowsHaveTodos(f: RelationsFilter, projects: seq<Project>, store: Store)
    ensures forall r :: r in WithRelations(f, projects, store) ==> r.todos != []
    decreases projects
  {
    if projects != [] {
      SubTodosNeedTodos(f, projects[0], store);
      RowsHaveTodos(f, projects[1..], store);
    }
  }

  lemma {:induction false} StepAppend(st: Stage, a: seq<Row>, b: seq<Row>, store: Store)
    ensures Step(st, a + b, store) == Step(st, a, store) + Step(st, b, store)
    decreases a
  {
    if a == [] {
      assert a + b == b;
    } else {
      assert (a + b)[1..] == a[1..] + b;
      StepAppend(st, a[1..], b, store);
    }
  }

  /** The stages treat rows independently and keep their order. */
  lemma {:induction false} AggregateAppend(stages: seq<Stage>, a: seq<Row>, b: seq<Row>, store: Store)
    ensures Aggregate(stages, a + b, store) == Aggregate(stages, a, store) + Aggregate(stages, b, store)
    decreases stages
  {
    if stages != [] {
      StepAppend(stages[0], a, b, store);
      AggregateAppend(stages[1..], Step(stages[0], a, store), Step(stages[0], b, store), store);
    }
  }

  lemma {:induction false} AggregateNothing(stages: seq<Stage>, store: Store)
    ensures Aggregate(stages, [], store) == []
    decreases stages
  {
    if stages != [] {
      AggregateNothing(stages[1..], store);
    }
  }

  lemma StepOne(st: Stage, r: Row, store: Store)
    ensures Step(st, [r], store) == StepRow(st, r, store)
  {
    assert [r][1..] == [];
  }

  /** The todos sub-pipeline yields the project's own todos that pass the todo query. */
  lemma TodoStagesMeaning(f: RelationsFilter, pid: nat, store: Store)
    ensures RunTodoStages(TodoStages(f), store.todos, pid, store.regex)
         == Selected(Owned(store.todos, pid), OrAll(f.todo), TodoDoc, store.regex)
  {
    var st := TodoStages(f);
    var owned := Owned(store.todos, pid);
    assert RunTodoStages(st, store.todos, pid, store.regex) == RunTodoStages(st[1..], owned, pid, store.regex);
    if HasKeys(f.todo) {
      assert st[1..][1..] == [];
    } else {
      assert st[1..] == [];
      SelectedAll(owned, [], TodoDoc, store.regex);
    }
  }

  /** The subtodos sub-pipeline yields the listed todos' subtodos that pass the subtodo query. */
  lemma SubTodoStagesMeaning(f: RelationsFilter, ids: seq<nat>, store: Store)
    ensures RunSubTodoStages(SubTodoStages(f), store.subTodos, ids, store.regex)
         == Selected(Under(store.subTodos, ids), OrAll(f.subTodo), SubTodoDoc, store.regex)
  {
    var st := SubTodoStages(f);
    var under := Under(store.subTodos, ids);
    assert RunSubTodoStages(st, store.subTodos, ids, store.regex) == RunSubTodoStages(st[1..], under, ids, store.regex);
    if HasKeys(f.subTodo) {
      assert st[1..][1..] == [];
    } else {
      assert st[1..] == [];
      SelectedAll(under, [], SubTodoDoc, store.regex);
    }
  }

  lemma LookupTodosOne(f: RelationsFilter, p: Project, store: Store)
    ensures Step(LookupTodos(TodoStages(f)), [Row(p, [], [])], store) == [Row(p, Related(f, p, store).todos, [])]
  {
    TodoStagesMeaning(f, p.id, store);
    StepOne(LookupTodos(TodoStages(f)), Row(p, [], []), store);
  }

  lemma LookupSubTodosOne(f: RelationsFilter, p: Project, store: Store)
    ensures var r := Related(f, p, store);
      Step(LookupSubTodos(SubTodoStages(f)), [Row(p, r.todos, [])], store) == [r]
  {
    var r := Related(f, p, store);
    SubTodoStagesMeaning(f, TodoIds(r.todos), store);
    StepOne(LookupSubTodos(SubTodoStages(f)), Row(p, r.todos, []), store);
  }

  /** The joins and the final filter, run on one project's row. */
  lemma JoinsOne(f: RelationsFilter, p: Project, store: Store)
    ensures var r := Related(f, p, store);
      Aggregate(Joins(f), [Row(p, [], [])], store) == if r.todos != [] || r.subTodos != [] then [r] else []
  {
    var j0, j1, j2 := LookupTodos(TodoStages(f)), LookupSubTodos(SubTodoStages(f)), KeepLinked;
    var r := Related(f, p, store);
    var r0 := Row(p, [], []);
    var r1 := Row(p, r.todos, []);
    var out := if r.todos != [] || r.subTodos != [] then [r] else [];
    LookupTodosOne(f, p, store);
    LookupSubTodosOne(f, p, store);
    StepOne(j2, r, store);
    AggregateFirst(j0, [j1, j2], [r0], store);
    AggregateFirst(j1, [j2], [r1], store);
    AggregateFirst(j2, [], [r], store);
    assert Aggregate([], out, store) == out;
  }

  lemma AggregateFirst(st: Stage, rest: seq<Stage>, rows: seq<Row>, store: Store)
    ensures Aggregate([st] + rest, rows, store) == Aggregate(rest, Step(st, rows, store), store)
  {
    assert ([st] + rest)[1..] == rest;
  }

  /** The whole pipeline on one project's row. */
  lemma PipelineOne(f: RelationsFilter, p: Project, store: Store)
    ensures Aggregate(Pipeline(f), [Row(p, [], [])], store) == WithRelations(f, [p], store)
  {
    var pl := Pipeline(f);
    var row := Row(p, [], []);
    var r := Related(f, p, store);
    assert WithRelations(f, [p], store)
        == if Matches(OrAll(f.project), ProjectDoc(p), store.regex) && (r.todos != [] || r.subTodos != [])
           then [r] else [];
    JoinsOne(f, p, store);
    if HasKeys(f.project) {
      assert pl[1..] == Joins(f);
      StepOne(pl[0], row, store);
      if !Matches(f.project.value, ProjectDoc(p), store.regex) {
        AggregateNothing(pl[1..], store);
      }
    } else {
      assert pl == Joins(f);
      assert Matches(OrAll(f.project), ProjectDoc(p), store.regex);
    }
  }

  /**
   * The pipeline `findProjectsWithRelations` builds returns exactly the
   * intended answer; leaving out an empty or missing `$match` does not change it.
   */
  lemma {:induction false} PipelineMeaning(f: RelationsFilter, projects: seq<Project>, store: Store)
    ensures Aggregate(Pipeline(f), Initial(projects), store) == WithRelations(f, projects, store)
    decreases projects
  {
    if projects == [] {
      AggregateNothing(Pipeline(f), store);
    } else {
      var p := projects[0];
      var pl := Pipeline(f);
      assert Initial(projects) == [Row(p, [], [])] + Initial(projects[1..]);
      AggregateAppend(pl, [Row(p, [], [])], Initial(projects[1..]), store);
      PipelineOne(f, p, store);
      PipelineMeaning(f, projects[1..], store);
      WithRelationsCons(f, projects, store);
    }
  }

  lemma WithRelationsCons(f: RelationsFilter, projects: seq<Project>, store: Store)
    requires projects != []
    ensures WithRelations(f, projects, store) == WithRelations(f, [projects[0]], store) + WithRelations(f, projects[1..], store)
  {
    assert [projects[0]][1..] == [];
  }

  /**
   * With no todo carrying a `projectId` (the todo schema declares none, so
   * Mongoose's strict mode drops it from every todo it saves), no project is
   * returned, whatever the filter.
   */
  lemma {:induction false} NoOwnersNoRows(f: RelationsFilter, projects: seq<Project>, store: Store)
    requires forall t :: t in store.todos ==> t.projectId.None?
    ensures Aggregate(Pipeline(f), Initial(projects), store) == []
    decreases projects
  {
    PipelineMeaning(f, projects, store);
    NoneRelated(f, projects, store);
  }

  lemma {:induction false} NoneRelated(f: RelationsFilter, projects: seq<Project>, store: Store)
    requires forall t :: t in store.todos ==> t.projectId.None?
    ensures WithRelations(f, projects, store) == []
    decreases projects
  {
    if projects != [] {
      var r := Related(f, projects[0], store);
      SubTodosNeedTodos(f, projects[0], store);
      assert r.todos == [] by {
        assert forall t :: t in r.todos ==> t in store.todos && t.projectId.Some?;
      }
      NoneRelated(f, projects[1..], store);
    }
  }

  /** The project service over the three collections. */
  class ProjectService {
    const projects: Collection<Project>
    const todos: Collection<Todo>
    const subTodos: Collection<SubTodo>

    constructor (projects: Collection<Project>, todos: Collection<Todo>, subTodos: Collection<SubTodo>)
      ensures this.projects == projects && this.todos == todos && this.subTodos == subTodos
    {
      this.projects := projects;
      this.todos := todos;
      this.subTodos := subTodos;
    }

    /** Builds the pipeline by successive pushes, as the service does. */
    static method BuildPipeline(f: RelationsFilter) returns (pipeline: seq<Stage>)
      ensures pipeline == Pipeline(f)
    {
      pipeline := [];
      if HasKeys(f.project) {
        pipeline := pipeline + [Match(f.project.value)];
      }
      ghost var lead := pipeline;
      var todoStages := [SameProject];
      if HasKeys(f.todo) {
        todoStages := todoStages + [TodoMatch(f.todo.value)];
      }
      assert todoStages == TodoStages(f);
      pipeline := pipeline + [LookupTodos(todoStages)];
      var subStages := [UnderJoinedTodo];
      if HasKeys(f.subTodo) {
        subStages := subStages + [SubTodoMatch(f.subTodo.value)];
      }
      assert subStages == SubTodoStages(f);
      pipeline := pipeline + [LookupSubTodos(subStages)];
      pipeline := pipeline + [KeepLinked];
      assert pipeline == lead + Joins(f);
    }

    /**
     * `findProjectsWithRelations(filters)`: the projects that pass the project
     * query and own a todo passing the todo query, each with those todos and
     * their subtodos that pass the subtodo query. The aggregation runs on the
     * server of the projects collection, with its regex engine.
     */
    method FindProjectsWithRelations(filters: RelationsFilter) returns (rows: seq<Row>)
      ensures rows == WithRelations(filters, projects.docs, Store(todos.docs, subTodos.docs, projects.regex))
      ensures forall r :: r in rows ==> r.todos != []
    {
      var pipeline := BuildPipeline(filters);
      var store := Store(todos.docs, subTodos.docs, projects.regex);
      rows := Aggregate(pipeline, Initial(projects.docs), store);
      PipelineMeaning(filters, projects.docs, store);
      RowsHaveTodos(filters, projects.docs, store);
    }
  }
}

/**
 * The subtodo records and the part of `SubTodosService` that turns a search
 * filter into a query: `search` and `updateMatching`.
 */
module SubTodos {
  import opened Wrappers
  import opened Mongo
  import opened Filters

  /** A stored subtodo: it belongs to a project and hangs under a parent todo. */
  datatype SubTodo = SubTodo(
    id: nat,
    projectId: nat,
    parentId: nat,
    taskName: string,
    description: string,
    dueDate: int,
    priority: int,
    isCompleted: bool,
    createdAt: int,
    updatedAt: int)

  /** The document the query engine sees for a subtodo. */
  function SubTodoDoc(s: SubTodo): Document {
    map[
      Id := ObjectId(s.id),
      ProjectId := ObjectId(s.projectId),
      ParentId := ObjectId(s.parentId),
      TaskName := Str(s.taskName),
      Description := Str(s.description),
      DueDate := Date(s.dueDate),
      Priority := Num(s.priority),
      IsCompleted := Bool(s.isCompleted),
      CreatedAt := Date(s.createdAt),
      UpdatedAt := Date(s.updatedAt)
    ]
  }

  function SubTodoView(s: SubTodo): TaskView {
    TaskView(s.taskName, s.description, s.dueDate, s.priority, s.isCompleted, s.createdAt)
  }

  /** A compiled filter matches a subtodo exactly when the filter admits its fields. */
  lemma SubTodoMatches(f: Filter, s: SubTodo, regex: RegexEngine)
    ensures Matches(Compile(f), SubTodoDoc(s), regex) <==> Admits(f, SubTodoView(s), regex)
  {
    assert Exposes(SubTodoDoc(s), SubTodoView(s));
    CompileMeaning(f, SubTodoDoc(s), SubTodoView(s), regex);
  }

  /** `Partial<SubTodosDocument>` as an update: each given field is set. */
  datatype SubTodoPatch = SubTodoPatch(
    projectId: Option<nat>,
    parentId: Option<nat>,
    taskName: Option<string>,
    description: Option<string>,
    dueDate: Option<int>,
    priority: Option<int>,
    isCompleted: Option<bool>,
    createdAt: Option<int>,
    updatedAt: Option<int>)

  const NoChange := SubTodoPatch(None, None, None, None, None, None, None, None, None)

  function Pick<T>(given: Option<T>, current: T): T {
    if given.Some? then given.value else current
  }

  /** The subtodo after `$set` of every field the patch gives. */
  function Patch(s: SubTodo, p: SubTodoPatch): (r: SubTodo)
    ensures r.id == s.id
    ensures p.projectId.Some? ==> r.projectId == p.projectId.value
    ensures p.projectId.None? ==> r.projectId == s.projectId
    ensures p.parentId.Some? ==> r.parentId == p.parentId.value
    ensures p.parentId.None? ==> r.parentId == s.parentId
    ensures p.taskName.Some? ==> r.taskName == p.taskName.value
    ensures p.taskName.None? ==> r.taskName == s.taskName
    ensures p.description.Some? ==> r.description == p.description.value
    ensures p.description.None? ==> r.description == s.description
    ensures p.dueDate.Some? ==> r.dueDate == p.dueDate.value
    ensures p.dueDate.None? ==> r.dueDate == s.dueDate
    ensures p.priority.Some? ==> r.priority == p.priority.value
    ensures p.priority.None? ==> r.priority == s.priority
    ensures p.isCompleted.Some? ==> r.isCompleted == p.isCompleted.value
    ensures p.isCompleted.None? ==> r.isCompleted == s.isCompleted
    ensures p.createdAt.Some? ==> r.createdAt == p.createdAt.value
    ensures p.createdAt.None? ==> r.createdAt == s.createdAt
    ensures p.updatedAt.Some? ==> r.updatedAt == p.updatedAt.value
    ensures p.updatedAt.None? ==> r.updatedAt == s.updatedAt
    ensures p == NoChange ==> r == s
  {
    SubTodo(s.id, Pick(p.projectId, s.projectId), Pick(p.parentId, s.parentId), Pick(p.taskName, s.taskName),
            Pick(p.description, s.description), Pick(p.dueDate, s.dueDate), Pick(p.priority, s.priority),
            Pick(p.isCompleted, s.isCompleted), Pick(p.createdAt, s.createdAt), Pick(p.updatedAt, s.updatedAt))
  }

  /** Setting the same fields twice is setting them once. */
  lemma PatchIdempotent(s: SubTodo, p: SubTodoPatch)
    ensures Patch(Patch(s, p), p) == Patch(s, p)
  {
  }

  /** The subtodo service over the subtodos collection. */
  class SubTodosService {
    const model: Collection<SubTodo>

    constructor (model: Collection<SubTodo>)
      ensures this.model == model
    {
      this.model := model;
    }

    /** `search(filter)`: the stored subtodos the filter admits, in stored order. */
    method Search(filter: Filter) returns (found: seq<SubTodo>)
      ensures found == Selected(model.docs, Compile(filter), SubTodoDoc, model.regex)
      ensures forall s :: s in found <==> s in model.docs && Admits(filter, SubTodoView(s), model.regex)
    {
      var query := BuildQuery(filter);
      found := model.Find(query, SubTodoDoc);
      forall s | true
        ensures s in found <==> s in model.docs && Admits(filter, SubTodoView(s), model.regex)
      {
        SelectedMembers(model.docs, query, SubTodoDoc, model.regex, s);
        SubTodoMatches(filter, s, model.regex);
      }
    }

    /** `updateMatching(filter, update)`: applies `update` to every subtodo the filter admits. */
    method UpdateMatching(filter: Filter, update: SubTodoPatch) returns (res: UpdateResult)
      modifies model
      ensures model.docs == Patched(old(model.docs), Compile(filter), SubTodoDoc, Patch, update, model.regex)
      ensures res.matchedCount == |Selected(old(model.docs), Compile(filter), SubTodoDoc, model.regex)|
      ensures res.modifiedCount == Changed(old(model.docs), Compile(filter), SubTodoDoc, Patch, update, model.regex)
      ensures |model.docs| == |old(model.docs)|
      ensures forall i :: 0 <= i < |model.docs| ==>
        model.docs[i] == if Admits(filter, SubTodoView(old(model.docs)[i]), model.regex)
                         then Patch(old(model.docs)[i], update) else old(model.docs)[i]
    {
      var query := BuildQuery(filter);
      ghost var before := model.docs;
      PatchedAt(before, query, SubTodoDoc, Patch, update, model.regex);
      forall i | 0 <= i < |before| {
        SubTodoMatches(filter, before[i], model.regex);
      }
      res := model.UpdateMany(query, SubTodoDoc, Patch, update);
    }
  }

  /** Running the same `updateMatching` twice: the second run modifies nothing. */
  lemma UpdateMatchingTwice(docs: seq<SubTodo>, f: Filter, p: SubTodoPatch, regex: RegexEngine)
    ensures var once := Patched(docs, Compile(f), SubTodoDoc, Patch, p, regex);
      && Patched(once, Compile(f), SubTodoDoc, Patch, p, regex) == once
      && Changed(once, Compile(f), SubTodoDoc, Patch, p, regex) == 0
  {
    forall x: SubTodo ensures Patch(Patch(x, p), p) == Patch(x, p) {
      PatchIdempotent(x, p);
    }
    PatchedTwice(docs, Compile(f), SubTodoDoc, Patch, p, regex);
  }
}

/**
 * The todo records and the part of `TodosService` that turns a search filter
 * into a query: `search`, `updateMatching`, `getByLabel` and `deleteMatching`.
 */
module Todos {
  import opened Wrappers
  import opened Mongo
  import opened Filters

  /** Who wrote a record: the schema's `type` field, `"user"` or `"AI"`. */
  datatype Authoring = ByUser | ByAI

  function AuthoringName(a: Authoring): (s: string)
    ensures s == "user" || s == "AI"
  {
    match a
    case ByUser => "user"
    case ByAI => "AI"
  }

  /**
   * A stored todo. `projectId` is the field the project join reads; the todo
   * schema does not declare it, so a todo written through the model has none.
   */
  datatype Todo = Todo(
    id: nat,
    taskName: string,
    description: string,
    dueDate: int,
    priority: int,
    isCompleted: bool,
    kind: Authoring,
    labelText: string,
    createdAt: int,
    updatedAt: int,
    projectId: Option<nat>)

  /** The document the query engine sees for a todo. */
  function TodoDoc(t: Todo): Document {
    map[
      Id := ObjectId(t.id),
      TaskName := Str(t.taskName),
      Description := Str(t.description),
      DueDate := Date(t.dueDate),
      Priority := Num(t.priority),
      IsCompleted := Bool(t.isCompleted),
      Kind := Str(AuthoringName(t.kind)),
      Label := Str(t.labelText),
      CreatedAt := Date(t.createdAt),
      UpdatedAt := Date(t.updatedAt)
    ] + (if t.projectId.Some? then map[ProjectId := ObjectId(t.projectId.value)] else map[])
  }

  function TodoView(t: Todo): TaskView {
    TaskView(t.taskName, t.description, t.dueDate, t.priority, t.isCompleted, t.createdAt)
  }

  lemma TodoExposes(t: Todo)
    ensures Exposes(TodoDoc(t), TodoView(t))
  {
  }

  /** A compiled filter matches a todo exactly when the filter admits its fields. */
  lemma TodoMatches(f: Filter, t: Todo, regex: RegexEngine)
    ensures Matches(Compile(f), TodoDoc(t), regex) <==> Admits(f, TodoView(t), regex)
  {
    TodoExposes(t);
    CompileMeaning(f, TodoDoc(t), TodoView(t), regex);
  }

  /** `Partial<TodosDocument>` as an update: each given field is set. */
  datatype TodoPatch = TodoPatch(
    taskName: Option<string>,
    description: Option<string>,
    dueDate: Option<int>,
    priority: Option<int>,
    isCompleted: Option<bool>,
    kind: Option<Authoring>,
    labelText: Option<string>,
    createdAt: Option<int>,
    updatedAt: Option<int>)

  const NoChange := TodoPatch(None, None, None, None, None, None, None, None, None)

  function Pick<T>(given: Option<T>, current: T): T {
    if given.Some? then given.value else current
  }

  /** The todo after `$set` of every field the patch gives. */
  function Patch(t: Todo, p: TodoPatch): (r: Todo)
    ensures r.id == t.id && r.projectId == t.projectId
    ensures p.taskName.Some? ==> r.taskName == p.taskName.value
    ensures p.taskName.None? ==> r.taskName == t.taskName
    ensures p.description.Some? ==> r.description == p.description.value
    ensures p.description.None? ==> r.description == t.description
    ensures p.dueDate.Some? ==> r.dueDate == p.dueDate.value
    ensures p.dueDate.None? ==> r.dueDate == t.dueDate
    ensures p.priority.Some? ==> r.priority == p.priority.value
    ensures p.priority.None? ==> r.priority == t.priority
    ensures p.isCompleted.Some? ==> r.isCompleted == p.isCompleted.value
    ensures p.isCompleted.None? ==> r.isCompleted == t.isCompleted
    ensures p.kind.Some? ==> r.kind == p.kind.value
    ensures p.kind.None? ==> r.kind == t.kind
    ensures p.labelText.Some? ==> r.labelText == p.labelText.value
    ensures p.labelText.None? ==> r.labelText == t.labelText
    ensures p.createdAt.Some? ==> r.createdAt == p.createdAt.value
    ensures p.createdAt.None? ==> r.createdAt == t.createdAt
    ensures p.updatedAt.Some? ==> r.updatedAt == p.updatedAt.value
    ensures p.updatedAt.None? ==> r.updatedAt == t.updatedAt
    ensures p == NoChange ==> r == t
  {
    Todo(t.id, Pick(p.taskName, t.taskName), Pick(p.description, t.description), Pick(p.dueDate, t.dueDate),
         Pick(p.priority, t.priority), Pick(p.isCompleted, t.isCompleted), Pick(p.kind, t.kind),
         Pick(p.labelText, t.labelText), Pick(p.createdAt, t.createdAt), Pick(p.updatedAt, t.updatedAt), t.projectId)
  }

  /** Setting the same fields twice is setting them once. */
  lemma PatchIdempotent(t: Todo, p: TodoPatch)
    ensures Patch(Patch(t, p), p) == Patch(t, p)
  {
  }

  /**
   * The single argument `updateMatching` destructures: `{ filter, update }`.
   * A missing `filter` member is `None`; a missing `update` is `NoChange`.
   */
  datatype UpdateRequest = UpdateRequest(filter: Option<Filter>, update: TodoPatch)

  /**
   * The TypeErrors the two untyped methods throw: destructuring `{ filter, update }`
   * out of an `undefined` or `null` argument, and reading `filter.taskName`
   * when `filter` is `undefined`.
   */
  datatype ServiceError = ArgumentIsUndefined | FilterIsUndefined

  /** The todo service over the todos collection. */
  class TodosService {
    const model: Collection<Todo>

    constructor (model: Collection<Todo>)
      ensures this.model == model
    {
      this.model := model;
    }

    /** `search(filter)`: the stored todos the filter admits, in stored order. */
    method Search(filter: Filter) returns (found: seq<Todo>)
      ensures found == Selected(model.docs, Compile(filter), TodoDoc, model.regex)
      ensures forall t :: t in found <==> t in model.docs && Admits(filter, TodoView(t), model.regex)
    {
      var query := BuildQuery(filter);
      found := model.Find(query, TodoDoc);
      forall t | true
        ensures t in found <==> t in model.docs && Admits(filter, TodoView(t), model.regex)
      {
        SelectedMembers(model.docs, query, TodoDoc, model.regex, t);
        TodoMatches(filter, t, model.regex);
      }
    }

    /**
     * `updateMatching(filters, updates)`: the filter and the update both come
     * from the first argument; `updates` is never read. A missing or `null`
     * first argument is `None`.
     */
    method UpdateMatching(filters: Option<UpdateRequest>, updates: TodoPatch)
      returns (r: Result<UpdateResult, ServiceError>)
      modifies model
      ensures filters.None? ==> r == Err(ArgumentIsUndefined) && model.docs == old(model.docs)
      ensures filters.Some? && filters.value.filter.None? ==>
        r == Err(FilterIsUndefined) && model.docs == old(model.docs)
      ensures filters.Some? && filters.value.filter.Some? ==>
        var q := Compile(filters.value.filter.value);
        && model.docs == Patched(old(model.docs), q, TodoDoc, Patch, filters.value.update, model.regex)
        && r == Ok(UpdateResult(|Selected(old(model.docs), q, TodoDoc, model.regex)|,
                                Changed(old(model.docs), q, TodoDoc, Patch, filters.value.update, model.regex)))
      ensures filters.Some? && filters.value.filter.Some? ==>
        && |model.docs| == |old(model.docs)|
        && forall i :: 0 <= i < |model.docs| ==>
             model.docs[i] == if Admits(filters.value.filter.value, TodoView(old(model.docs)[i]), model.regex)
                              then Patch(old(model.docs)[i], filters.value.update) else old(model.docs)[i]
    {
      if filters.None? {
        return Err(ArgumentIsUndefined);
      }
      var request := filters.value;
      if request.filter.None? {
        return Err(FilterIsUndefined);
      }
      var filter := request.filter.value;
      var query := BuildQuery(filter);
      ghost var before := model.docs;
      PatchedAt(before, query, TodoDoc, Patch, request.update, model.regex);
      forall i | 0 <= i < |before| {
        TodoMatches(filter, before[i], model.regex);
      }
      var res := model.UpdateMany(query, TodoDoc, Patch, request.update);
      r := Ok(res);
    }

    /** `getByLabel(label)`: the stored todos with exactly that label. */
    method GetByLabel(labelText: string) returns (found: seq<Todo>)
      ensures found == Selected(model.docs, [Equals(Label, Str(labelText))], TodoDoc, model.regex)
      ensures forall t :: t in found <==> t in model.docs && t.labelText == labelText
    {
      var query := [Equals(Label, Str(labelText))];
      found := model.Find(query, TodoDoc);
      forall t | true
        ensures t in found <==> t in model.docs && t.labelText == labelText
      {
        SelectedMembers(model.docs, query, TodoDoc, model.regex, t);
        assert Matches(query, TodoDoc(t), model.regex) <==> Satisfies(query[0], TodoDoc(t), model.regex);
      }
    }

    /**
     * `deleteMatching(filter)`: removes the todos the filter admits, keeping the
     * rest in order. The parameter is untyped: an `undefined` filter throws on
     * its first property read and deletes nothing.
     */
    method DeleteMatching(filter: Option<Filter>) returns (r: Result<DeleteResult, ServiceError>)
      modifies model
      ensures filter.None? ==> r == Err(FilterIsUndefined) && model.docs == old(model.docs)
      ensures filter.Some? ==>
        && model.docs == Remaining(old(model.docs), Compile(filter.value), TodoDoc, model.regex)
        && r == Ok(DeleteResult(|Selected(old(model.docs), Compile(filter.value), TodoDoc, model.regex)|))
        && r.value.deletedCount == |old(model.docs)| - |model.docs|
      ensures filter.Some? ==>
        forall t :: t in model.docs <==> t in old(model.docs) && !Admits(filter.value, TodoView(t), model.regex)
    {
      if filter.None? {
        return Err(FilterIsUndefined);
      }
      var query := BuildQuery(filter.value);
      var res := model.DeleteMany(query, TodoDoc);
      forall t | true
        ensures t in model.docs <==> t in old(model.docs) && !Admits(filter.value, TodoView(t), model.regex)
      {
        RemainingMembers(old(model.docs), query, TodoDoc, model.regex, t);
        TodoMatches(filter.value, t, model.regex);
      }
      r := Ok(res);
    }
  }

  /** An empty filter (`{}` from the agent) deletes every todo. */
  lemma EmptyFilterDeletesAll(docs: seq<Todo>, regex: RegexEngine)
    ensures Remaining(docs, Compile(EmptyFilter), TodoDoc, regex) == []
  {
    forall t | t in docs ensures Matches(Compile(EmptyFilter), TodoDoc(t), regex) {
      EmptyFilterMatchesAll(TodoDoc(t), regex);
    }
    SelectedAll(docs, Compile(EmptyFilter), TodoDoc, regex);
  }

  /** Running the same `updateMatching` twice: the second run modifies nothing. */
  lemma UpdateMatchingTwice(docs: seq<Todo>, f: Filter, p: TodoPatch, regex: RegexEngine)
    ensures var once := Patched(docs, Compile(f), TodoDoc, Patch, p, regex);
      && Patched(once, Compile(f), TodoDoc, Patch, p, regex) == once
      && Changed(once, Compile(f), TodoDoc, Patch, p, regex) == 0
  {
    forall x: Todo ensures Patch(Patch(x, p), p) == Patch(x, p) {
      PatchIdempotent(x, p);
    }
    PatchedTwice(docs, Compile(f), TodoDoc, Patch, p, regex);
  }
}

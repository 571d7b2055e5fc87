/**
 * The search filter shared by the todo and subtodo services, and the one
 * translation from a filter to a query that their `search`, `updateMatching`
 * and `deleteMatching` each write out by hand.
 */
module Filters {
  import opened Mongo

  /**
   * A filter field as JavaScript sees it after `JSON.parse`: missing
   * (`undefined`), `null`, or a value.
   */
  datatype JsField<T> = Undefined | Null | Given(value: T)

  /** The filter's fields; dates are milliseconds. */
  datatype Filter = Filter(
    taskName: JsField<string>,
    dueDate: JsField<int>,
    priority: JsField<int>,
    isCompleted: JsField<bool>,
    createdAt: JsField<int>,
    searchTerm: JsField<string>)

  const EmptyFilter := Filter(Undefined, Undefined, Undefined, Undefined, Undefined, Undefined)

  /** `x !== undefined`: `null` counts as defined. */
  predicate IsDefined<T>(x: JsField<T>) {
    !x.Undefined?
  }

  /** Truthiness of a string field: `undefined`, `null` and "" are falsy. */
  predicate TruthyText(x: JsField<string>) {
    x.Given? && x.value != ""
  }

  /** Truthiness of a date given as a number of milliseconds: 0 is falsy. */
  predicate TruthyDate(x: JsField<int>) {
    x.Given? && x.value != 0
  }

  function NumberValue(x: JsField<int>): Value {
    if x.Given? then Num(x.value) else Value.Null
  }

  function BoolValue(x: JsField<bool>): Value {
    if x.Given? then Bool(x.value) else Value.Null
  }

  function Equals(field: Field, v: Value): Clause {
    Test(FieldCond(field, Eq(v)))
  }

  /** `$or` of a case-insensitive regular expression on `taskName` and on `description`. */
  function SearchClause(term: string): Clause {
    AnyOf([FieldCond(TaskName, Regex(term, "i")), FieldCond(Description, Regex(term, "i"))])
  }

  // One function per `if` of the hand-written builders: the key it adds, or nothing.

  function TaskNamePart(f: Filter): Query {
    if TruthyText(f.taskName) then [Equals(TaskName, Str(f.taskName.value))] else []
  }

  function DueDatePart(f: Filter): Query {
    if TruthyDate(f.dueDate) then [Equals(DueDate, Date(f.dueDate.value))] else []
  }

  function PriorityPart(f: Filter): Query {
    if IsDefined(f.priority) then [Equals(Priority, NumberValue(f.priority))] else []
  }

  function CompletedPart(f: Filter): Query {
    if IsDefined(f.isCompleted) then [Equals(IsCompleted, BoolValue(f.isCompleted))] else []
  }

  function CreatedAtPart(f: Filter): Query {
    if TruthyDate(f.createdAt) then [Equals(CreatedAt, Date(f.createdAt.value))] else []
  }

  function SearchPart(f: Filter): Query {
    if TruthyText(f.searchTerm) then [SearchClause(f.searchTerm.value)] else []
  }

  /** A filter that adds no key at all. */
  predicate Inert(f: Filter) {
    && !TruthyText(f.taskName) && !TruthyDate(f.dueDate) && !IsDefined(f.priority)
    && !IsDefined(f.isCompleted) && !TruthyDate(f.createdAt) && !TruthyText(f.searchTerm)
  }

  /**
   * The query a filter stands for: `taskName`, `dueDate` and `createdAt` when
   * truthy, `priority` and `isCompleted` when not `undefined` (so `0`, `false`
   * and `null` are kept), and `$or` when `searchTerm` is truthy, in that order.
   */
  function Compile(f: Filter): (q: Query)
    ensures Keys(q) == IncludedKeys(f)
    ensures q == [] <==> Inert(f)
    ensures f.priority.Given? ==> Equals(Priority, Num(f.priority.value)) in q
    ensures f.isCompleted.Given? ==> Equals(IsCompleted, Bool(f.isCompleted.value)) in q
    ensures TruthyText(f.searchTerm) ==> q[|q| - 1] == SearchClause(f.searchTerm.value)
  {
    var q := TaskNamePart(f) + DueDatePart(f) + PriorityPart(f) + CompletedPart(f) + CreatedAtPart(f) + SearchPart(f);
    PartsKeys(f);
    q
  }

  /**
   * The builder the services write out: start from `{}` and add each key whose
   * test passes, in source order.
   */
  method BuildQuery(filter: Filter) returns (query: Query)
    ensures query == Compile(filter)
  {
    query := [];
    if TruthyText(filter.taskName) {
      query := query + [Equals(TaskName, Str(filter.taskName.value))];
    }
    assert query == TaskNamePart(filter);
    if TruthyDate(filter.dueDate) {
      query := query + [Equals(DueDate, Date(filter.dueDate.value))];
    }
    assert query == TaskNamePart(filter) + DueDatePart(filter);
    if IsDefined(filter.priority) {
      query := query + [Equals(Priority, NumberValue(filter.priority))];
    }
    assert query == TaskNamePart(filter) + DueDatePart(filter) + PriorityPart(filter);
    if IsDefined(filter.isCompleted) {
      query := query + [Equals(IsCompleted, BoolValue(filter.isCompleted))];
    }
    assert query == TaskNamePart(filter) + DueDatePart(filter) + PriorityPart(filter) + CompletedPart(filter);
    if TruthyDate(filter.createdAt) {
      query := query + [Equals(CreatedAt, Date(filter.createdAt.value))];
    }
    assert query == TaskNamePart(filter) + DueDatePart(filter) + PriorityPart(filter) + CompletedPart(filter)
                    + CreatedAtPart(filter);
    if TruthyText(filter.searchTerm) {
      query := query + [SearchClause(filter.searchTerm.value)];
    }
  }

  /**
   * The keys a filter contributes, in insertion order; each is present exactly
   * when its test in the builders passes.
   */
  function IncludedKeys(f: Filter): (ks: seq<Key>)
    ensures (FieldKey(TaskName) in ks) <==> TruthyText(f.taskName)
    ensures (FieldKey(DueDate) in ks) <==> TruthyDate(f.dueDate)
    ensures (FieldKey(Priority) in ks) <==> IsDefined(f.priority)
    ensures (FieldKey(IsCompleted) in ks) <==> IsDefined(f.isCompleted)
    ensures (FieldKey(CreatedAt) in ks) <==> TruthyDate(f.createdAt)
    ensures (OrKey in ks) <==> TruthyText(f.searchTerm)
  {
    (if TruthyText(f.taskName) then [FieldKey(TaskName)] else [])
    + (if TruthyDate(f.dueDate) then [FieldKey(DueDate)] else [])
    + (if IsDefined(f.priority) then [FieldKey(Priority)] else [])
    + (if IsDefined(f.isCompleted) then [FieldKey(IsCompleted)] else [])
    + (if TruthyDate(f.createdAt) then [FieldKey(CreatedAt)] else [])
    + (if TruthyText(f.searchTerm) then [OrKey] else [])
  }

  lemma PartsKeys(f: Filter)
    ensures Keys(TaskNamePart(f) + DueDatePart(f) + PriorityPart(f) + CompletedPart(f) + CreatedAtPart(f)
                 + SearchPart(f)) == IncludedKeys(f)
  {
    var q1, q2, q3 := TaskNamePart(f), DueDatePart(f), PriorityPart(f);
    var q4, q5, q6 := CompletedPart(f), CreatedAtPart(f), SearchPart(f);
    assert Keys(q1) == if TruthyText(f.taskName) then [FieldKey(TaskName)] else [];
    assert Keys(q2) == if TruthyDate(f.dueDate) then [FieldKey(DueDate)] else [];
    assert Keys(q3) == if IsDefined(f.priority) then [FieldKey(Priority)] else [];
    assert Keys(q4) == if IsDefined(f.isCompleted) then [FieldKey(IsCompleted)] else [];
    assert Keys(q5) == if TruthyDate(f.createdAt) then [FieldKey(CreatedAt)] else [];
    assert Keys(q6) == if TruthyText(f.searchTerm) then [OrKey] else [];
    KeysAppend(q1, q2);
    KeysAppend(q1 + q2, q3);
    KeysAppend(q1 + q2 + q3, q4);
    KeysAppend(q1 + q2 + q3 + q4, q5);
    KeysAppend(q1 + q2 + q3 + q4 + q5, q6);
  }

  // ---------------------------------------------------------------------------
  // What the compiled query selects.

  /** The searchable fields of a todo or a subtodo. */
  datatype TaskView = TaskView(
    taskName: string,
    description: string,
    dueDate: int,
    priority: int,
    isCompleted: bool,
    createdAt: int)

  /** `d` stores the fields of `v` under their schema names. */
  ghost predicate Exposes(d: Document, v: TaskView) {
    && TaskName in d && d[TaskName] == Str(v.taskName)
    && Description in d && d[Description] == Str(v.description)
    && DueDate in d && d[DueDate] == Date(v.dueDate)
    && Priority in d && d[Priority] == Num(v.priority)
    && IsCompleted in d && d[IsCompleted] == Bool(v.isCompleted)
    && CreatedAt in d && d[CreatedAt] == Date(v.createdAt)
  }

  /**
   * What a filter asks of a record, field by field: every truthy text or date
   * field equals the record's, every defined `priority` / `isCompleted` equals
   * the record's (a `null` equals none), and a truthy `searchTerm` matches the
   * task name or the description case-insensitively.
   */
  ghost predicate Admits(f: Filter, v: TaskView, regex: RegexEngine) {
    && (TruthyText(f.taskName) ==> v.taskName == f.taskName.value)
    && (TruthyDate(f.dueDate) ==> v.dueDate == f.dueDate.value)
    && (IsDefined(f.priority) ==> f.priority == Given(v.priority))
    && (IsDefined(f.isCompleted) ==> f.isCompleted == Given(v.isCompleted))
    && (TruthyDate(f.createdAt) ==> v.createdAt == f.createdAt.value)
    && (TruthyText(f.searchTerm) ==>
          regex(f.searchTerm.value, "i", v.taskName) || regex(f.searchTerm.value, "i", v.description))
  }

  lemma MatchesOne(c: Clause, d: Document, regex: RegexEngine)
    ensures Matches([c], d, regex) <==> Satisfies(c, d, regex)
  {
    assert [c][0] == c;
  }

  lemma TaskNamePartMeaning(f: Filter, d: Document, v: TaskView, regex: RegexEngine)
    requires Exposes(d, v)
    ensures Matches(TaskNamePart(f), d, regex) <==> (TruthyText(f.taskName) ==> v.taskName == f.taskName.value)
  {
    if TruthyText(f.taskName) { MatchesOne(TaskNamePart(f)[0], d, regex); }
  }

  lemma DueDatePartMeaning(f: Filter, d: Document, v: TaskView, regex: RegexEngine)
    requires Exposes(d, v)
    ensures Matches(DueDatePart(f), d, regex) <==> (TruthyDate(f.dueDate) ==> v.dueDate == f.dueDate.value)
  {
    if TruthyDate(f.dueDate) { MatchesOne(DueDatePart(f)[0], d, regex); }
  }

  lemma PriorityPartMeaning(f: Filter, d: Document, v: TaskView, regex: RegexEngine)
    requires Exposes(d, v)
    ensures Matches(PriorityPart(f), d, regex) <==> (IsDefined(f.priority) ==> f.priority == Given(v.priority))
  {
    if IsDefined(f.priority) { MatchesOne(PriorityPart(f)[0], d, regex); }
  }

  lemma CompletedPartMeaning(f: Filter, d: Document, v: TaskView, regex: RegexEngine)
    requires Exposes(d, v)
    ensures Matches(CompletedPart(f), d, regex) <==> (IsDefined(f.isCompleted) ==> f.isCompleted == Given(v.isCompleted))
  {
    if IsDefined(f.isCompleted) { MatchesOne(CompletedPart(f)[0], d, regex); }
  }

  lemma CreatedAtPartMeaning(f: Filter, d: Document, v: TaskView, regex: RegexEngine)
    requires Exposes(d, v)
    ensures Matches(CreatedAtPart(f), d, regex) <==> (TruthyDate(f.createdAt) ==> v.createdAt == f.createdAt.value)
  {
    if TruthyDate(f.createdAt) { MatchesOne(CreatedAtPart(f)[0], d, regex); }
  }

  lemma SearchPartMeaning(f: Filter, d: Document, v: TaskView, regex: RegexEngine)
    requires Exposes(d, v)
    ensures Matches(SearchPart(f), d, regex) <==>
      (TruthyText(f.searchTerm) ==>
         regex(f.searchTerm.value, "i", v.taskName) || regex(f.searchTerm.value, "i", v.description))
  {
    if TruthyText(f.searchTerm) {
      var c := SearchPart(f)[0];
      MatchesOne(c, d, regex);
      assert Satisfies(c, d, regex) <==> Holds(c.alternatives[0], d, regex) || Holds(c.alternatives[1], d, regex);
    }
  }

  /** The compiled query matches a record exactly when the filter admits it. */
  lemma CompileMeaning(f: Filter, d: Document, v: TaskView, regex: RegexEngine)
    requires Exposes(d, v)
    ensures Matches(Compile(f), d, regex) <==> Admits(f, v, regex)
  {
    var q1, q2, q3 := TaskNamePart(f), DueDatePart(f), PriorityPart(f);
    var q4, q5, q6 := CompletedPart(f), CreatedAtPart(f), SearchPart(f);
    MatchesAppend(q1, q2, d, regex);
    MatchesAppend(q1 + q2, q3, d, regex);
    MatchesAppend(q1 + q2 + q3, q4, d, regex);
    MatchesAppend(q1 + q2 + q3 + q4, q5, d, regex);
    MatchesAppend(q1 + q2 + q3 + q4 + q5, q6, d, regex);
    TaskNamePartMeaning(f, d, v, regex);
    DueDatePartMeaning(f, d, v, regex);
    PriorityPartMeaning(f, d, v, regex);
    CompletedPartMeaning(f, d, v, regex);
    CreatedAtPartMeaning(f, d, v, regex);
    SearchPartMeaning(f, d, v, regex);
  }

  /** The empty filter compiles to `{}`, which matches every record. */
  lemma EmptyFilterMatchesAll(d: Document, regex: RegexEngine)
    ensures Compile(EmptyFilter) == []
    ensures Matches(Compile(EmptyFilter), d, regex)
  {
  }

  /**
   * A text field enters the query only through its truthiness: "" and `null`
   * add the same nothing as `undefined`.
   */
  lemma FalsyTaskNameAddsNothing(f: Filter)
    requires !TruthyText(f.taskName)
    ensures Compile(f) == Compile(f.(taskName := Undefined))
  {
    var g := f.(taskName := Undefined);
    assert TaskNamePart(f) == TaskNamePart(g) == [];
    assert DueDatePart(f) == DueDatePart(g);
    assert PriorityPart(f) == PriorityPart(g);
    assert CompletedPart(f) == CompletedPart(g);
    assert CreatedAtPart(f) == CreatedAtPart(g);
    assert SearchPart(f) == SearchPart(g);
  }

  /** A non-empty search term adds exactly the `$or`, after the other keys. */
  lemma SearchTermAddsDisjunction(f: Filter, term: string)
    requires term != ""
    ensures Compile(f.(searchTerm := Given(term))) == Compile(f.(searchTerm := Undefined)) + [SearchClause(term)]
  {
    var g, h := f.(searchTerm := Given(term)), f.(searchTerm := Undefined);
    assert SearchPart(g) == [SearchClause(term)] && SearchPart(h) == [];
    assert TaskNamePart(g) == TaskNamePart(h);
    assert DueDatePart(g) == DueDatePart(h);
    assert PriorityPart(g) == PriorityPart(h);
    assert CompletedPart(g) == CompletedPart(h);
    assert CreatedAtPart(g) == CreatedAtPart(h);
  }
}

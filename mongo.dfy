/**
 * The slice of MongoDB the services rely on: documents, the query shapes the
 * services build, how a query selects documents, and a collection whose
 * `find`, `updateMany` and `deleteMany` act on an in-memory sequence of records.
 */
module Mongo {

  /** A field value as the query engine compares it. Dates are milliseconds. */
  datatype Value =
    | Null
    | Bool(b: bool)
    | Num(n: int)
    | Str(s: string)
    | Date(ms: int)
    | ObjectId(id: nat)

  /**
   * The field paths the schemas declare (`type` is `Kind`, `_id` is `Id`);
   * a query or a document names fields only from these.
   */
  datatype Field =
    | Id | Name | Kind | TaskName | Description | DueDate | Priority | IsCompleted
    | Label | CreatedAt | UpdatedAt | ProjectId | ParentId

  /** A stored document: field to value; a missing field is absent. */
  type Document = map<Field, Value>

  /**
   * The server's evaluation of `{ $regex: pattern, $options: options }` on a
   * string field: `Regex(pattern, options, subject)`. It is a parameter of the
   * model; nothing here assumes literal-substring semantics.
   */
  type RegexEngine = (string, string, string) -> bool

  /** The condition placed on one field: `value` or `{ $regex, $options }`. */
  datatype Cond = Eq(value: Value) | Regex(pattern: string, options: string)

  /** `{ field: cond }` */
  datatype FieldCond = FieldCond(field: Field, cond: Cond)

  /** One key of a query object: a field condition, or `$or` over field conditions. */
  datatype Clause = Test(test: FieldCond) | AnyOf(alternatives: seq<FieldCond>)

  /** A query object; its keys in insertion order. */
  type Query = seq<Clause>

  /** A key of a query object: a field, or `$or`. */
  datatype Key = FieldKey(field: Field) | OrKey

  function KeyOf(c: Clause): Key {
    match c
    case Test(t) => FieldKey(t.field)
    case AnyOf(_) => OrKey
  }

  /** `Object.keys(query)` */
  function Keys(q: Query): (ks: seq<Key>)
    ensures |ks| == |q|
  {
    if q == [] then [] else [KeyOf(q[0])] + Keys(q[1..])
  }

  lemma {:induction false} KeysAppend(a: Query, b: Query)
    ensures Keys(a + b) == Keys(a) + Keys(b)
    decreases a
  {
    if a == [] {
      assert a + b == b;
    } else {
      assert (a + b)[1..] == a[1..] + b;
      KeysAppend(a[1..], b);
    }
  }

  /**
   * Equality matches an equal stored value; `null` also matches a document
   * without the field. A regular expression matches only a string field.
   */
  predicate Holds(t: FieldCond, d: Document, regex: RegexEngine) {
    match t.cond
    case Eq(v) => (t.field in d && d[t.field] == v) || (v == Null && t.field !in d)
    case Regex(p, o) => t.field in d && d[t.field].Str? && regex(p, o, d[t.field].s)
  }

  predicate Satisfies(c: Clause, d: Document, regex: RegexEngine) {
    match c
    case Test(t) => Holds(t, d, regex)
    case AnyOf(alts) => exists j :: 0 <= j < |alts| && Holds(alts[j], d, regex)
  }

  /** The keys of a query are ANDed; the empty query matches every document. */
  predicate Matches(q: Query, d: Document, regex: RegexEngine) {
    forall i :: 0 <= i < |q| ==> Satisfies(q[i], d, regex)
  }

  lemma MatchesAppend(q1: Query, q2: Query, d: Document, regex: RegexEngine)
    ensures Matches(q1 + q2, d, regex) <==> Matches(q1, d, regex) && Matches(q2, d, regex)
  {
    if Matches(q1, d, regex) && Matches(q2, d, regex) {
      forall i | 0 <= i < |q1 + q2| ensures Satisfies((q1 + q2)[i], d, regex) {
        if i >= |q1| {
          assert (q1 + q2)[i] == q2[i - |q1|];
        }
      }
    }
    if Matches(q1 + q2, d, regex) {
      forall i | 0 <= i < |q1| ensures Satisfies(q1[i], d, regex) {
        assert (q1 + q2)[i] == q1[i];
      }
      forall i | 0 <= i < |q2| ensures Satisfies(q2[i], d, regex) {
        assert (q1 + q2)[|q1| + i] == q2[i];
      }
    }
  }

  // ---------------------------------------------------------------------------
  // Selection over a sequence of records. `shape` is how a record appears to the
  // query engine (its schema); callers pass a named function.

  /** The records a query matches, in stored order: what `find(query)` returns. */
  function Selected<D>(s: seq<D>, q: Query, shape: D -> Document, regex: RegexEngine): (r: seq<D>)
    ensures |r| <= |s|
    ensures forall x :: x in r ==> x in s && Matches(q, shape(x), regex)
    decreases s
  {
    if s == [] then []
    else (if Matches(q, shape(s[0]), regex) then [s[0]] else []) + Selected(s[1..], q, shape, regex)
  }

  /** The records a query does not match, in stored order: what `deleteMany(query)` keeps. */
  function Remaining<D>(s: seq<D>, q: Query, shape: D -> Document, regex: RegexEngine): (r: seq<D>)
    ensures |r| <= |s|
    ensures forall x :: x in r ==> x in s && !Matches(q, shape(x), regex)
    decreases s
  {
    if s == [] then []
    else (if Matches(q, shape(s[0]), regex) then [] else [s[0]]) + Remaining(s[1..], q, shape, regex)
  }

  /** Every record the query matches, after `apply` applies the patch: what `updateMany` stores. */
  function Patched<D, P>(s: seq<D>, q: Query, shape: D -> Document, apply: (D, P) -> D, patch: P,
                         regex: RegexEngine): (r: seq<D>)
    ensures |r| == |s|
    ensures forall i :: 0 <= i < |s| && !Matches(q, shape(s[i]), regex) ==> r[i] == s[i]
    decreases s
  {
    if s == [] then []
    else [if Matches(q, shape(s[0]), regex) then apply(s[0], patch) else s[0]]
         + Patched(s[1..], q, shape, apply, patch, regex)
  }

  /** How many matched records the patch actually changes: `modifiedCount`. */
  function Changed<D(==), P>(s: seq<D>, q: Query, shape: D -> Document, apply: (D, P) -> D, patch: P,
                             regex: RegexEngine): (n: nat)
    ensures n <= |Selected(s, q, shape, regex)|
    decreases s
  {
    if s == [] then 0
    else (if Matches(q, shape(s[0]), regex) && apply(s[0], patch) != s[0] then 1 else 0)
         + Changed(s[1..], q, shape, apply, patch, regex)
  }

  /** A record is selected exactly when it is stored and matches. */
  lemma {:induction false} SelectedMembers<D>(s: seq<D>, q: Query, shape: D -> Document, regex: RegexEngine, x: D)
    ensures x in Selected(s, q, shape, regex) <==> x in s && Matches(q, shape(x), regex)
    decreases s
  {
    if s != [] {
      SelectedMembers(s[1..], q, shape, regex, x);
      assert x in s <==> x == s[0] || x in s[1..];
    }
  }

  /** A record is kept by a delete exactly when it is stored and does not match. */
  lemma {:induction false} RemainingMembers<D>(s: seq<D>, q: Query, shape: D -> Document, regex: RegexEngine, x: D)
    ensures x in Remaining(s, q, shape, regex) <==> x in s && !Matches(q, shape(x), regex)
    decreases s
  {
    if s != [] {
      RemainingMembers(s[1..], q, shape, regex, x);
      assert x in s <==> x == s[0] || x in s[1..];
    }
  }

  /** Matched and unmatched records together account for the whole sequence. */
  lemma {:induction false} PartitionSizes<D>(s: seq<D>, q: Query, shape: D -> Document, regex: RegexEngine)
    ensures |Selected(s, q, shape, regex)| + |Remaining(s, q, shape, regex)| == |s|
    decreases s
  {
    if s != [] {
      PartitionSizes(s[1..], q, shape, regex);
    }
  }

  /** Selection distributes over concatenation: it keeps the stored order. */
  lemma {:induction false} SelectedAppend<D>(a: seq<D>, b: seq<D>, q: Query, shape: D -> Document, regex: RegexEngine)
    ensures Selected(a + b, q, shape, regex) == Selected(a, q, shape, regex) + Selected(b, q, shape, regex)
    decreases a
  {
    if a != [] {
      assert (a + b)[1..] == a[1..] + b;
      SelectedAppend(a[1..], b, q, shape, regex);
    } else {
      assert a + b == b;
    }
  }

  /** Deletion distributes over concatenation: survivors keep their stored order. */
  lemma {:induction false} RemainingAppend<D>(a: seq<D>, b: seq<D>, q: Query, shape: D -> Document, regex: RegexEngine)
    ensures Remaining(a + b, q, shape, regex) == Remaining(a, q, shape, regex) + Remaining(b, q, shape, regex)
    decreases a
  {
    if a != [] {
      assert (a + b)[1..] == a[1..] + b;
      RemainingAppend(a[1..], b, q, shape, regex);
    } else {
      assert a + b == b;
    }
  }

  /** A query that matches every record selects all of them and deletes none... */
  lemma {:induction false} SelectedAll<D>(s: seq<D>, q: Query, shape: D -> Document, regex: RegexEngine)
    requires forall x :: x in s ==> Matches(q, shape(x), regex)
    ensures Selected(s, q, shape, regex) == s
    ensures Remaining(s, q, shape, regex) == []
    decreases s
  {
    if s != [] {
      assert s[0] in s && forall x :: x in s[1..] ==> x in s;
      SelectedAll(s[1..], q, shape, regex);
    }
  }

  /** ...and one that matches none selects nothing and leaves every record. */
  lemma {:induction false} SelectedNone<D>(s: seq<D>, q: Query, shape: D -> Document, regex: RegexEngine)
    requires forall x :: x in s ==> !Matches(q, shape(x), regex)
    ensures Selected(s, q, shape, regex) == []
    ensures Remaining(s, q, shape, regex) == s
    decreases s
  {
    if s != [] {
      assert s[0] in s && forall x :: x in s[1..] ==> x in s;
      SelectedNone(s[1..], q, shape, regex);
    }
  }

  /** An update keeps the length and position of every record, and patches exactly the matched ones. */
  lemma {:induction false} PatchedAt<D, P>(s: seq<D>, q: Query, shape: D -> Document, apply: (D, P) -> D, patch: P,
                                           regex: RegexEngine)
    ensures |Patched(s, q, shape, apply, patch, regex)| == |s|
    ensures forall i :: 0 <= i < |s| ==>
      Patched(s, q, shape, apply, patch, regex)[i]
        == if Matches(q, shape(s[i]), regex) then apply(s[i], patch) else s[i]
    decreases s
  {
    if s != [] {
      PatchedAt(s[1..], q, shape, apply, patch, regex);
      var r := Patched(s, q, shape, apply, patch, regex);
      forall i | 0 <= i < |s|
        ensures r[i] == if Matches(q, shape(s[i]), regex) then apply(s[i], patch) else s[i]
      {
        if i > 0 {
          assert r[i] == Patched(s[1..], q, shape, apply, patch, regex)[i - 1];
          assert s[i] == s[1..][i - 1];
        }
      }
    }
  }

  /**
   * With an idempotent patch, a second `updateMany` over the result leaves it
   * as it is and modifies nothing: a patched record stays patched whether or
   * not it still matches, and an unmatched record is still unmatched.
   */
  lemma {:induction false} PatchedTwice<D, P>(s: seq<D>, q: Query, shape: D -> Document, apply: (D, P) -> D,
                                                  patch: P, regex: RegexEngine)
    requires forall x :: apply(apply(x, patch), patch) == apply(x, patch)
    ensures var once := Patched(s, q, shape, apply, patch, regex);
      && Patched(once, q, shape, apply, patch, regex) == once
      && Changed(once, q, shape, apply, patch, regex) == 0
    decreases s
  {
    if s != [] {
      PatchedTwice(s[1..], q, shape, apply, patch, regex);
      var once := Patched(s, q, shape, apply, patch, regex);
      assert once[1..] == Patched(s[1..], q, shape, apply, patch, regex);
    }
  }

  /** The reply of `updateMany`. */
  datatype UpdateResult = UpdateResult(matchedCount: nat, modifiedCount: nat)

  /** The reply of `deleteMany`. */
  datatype DeleteResult = DeleteResult(deletedCount: nat)

  /** A collection (a Mongoose model) holding its records in stored order. */
  class Collection<D(==)> {
    var docs: seq<D>
    /** The server's `$regex` evaluation. */
    const regex: RegexEngine

    constructor (docs: seq<D>, regex: RegexEngine)
      ensures this.docs == docs
    {
      this.docs := docs;
      this.regex := regex;
    }

    /** `find(query)`: the matched records in stored order; nothing changes. */
    method Find(q: Query, shape: D -> Document) returns (found: seq<D>)
      ensures found == Selected(docs, q, shape, regex)
      ensures forall d :: d in found <==> d in docs && Matches(q, shape(d), regex)
    {
      found := Selected(docs, q, shape, regex);
      forall d {
        SelectedMembers(docs, q, shape, regex, d);
      }
    }

    /** `updateMany(query, patch)`: patches each matched record in place. */
    method UpdateMany<P>(q: Query, shape: D -> Document, apply: (D, P) -> D, patch: P) returns (res: UpdateResult)
      modifies this
      ensures docs == Patched(old(docs), q, shape, apply, patch, regex)
      ensures res.matchedCount == |Selected(old(docs), q, shape, regex)|
      ensures res.modifiedCount == Changed(old(docs), q, shape, apply, patch, regex)
    {
      res := UpdateResult(|Selected(docs, q, shape, regex)|, Changed(docs, q, shape, apply, patch, regex));
      docs := Patched(docs, q, shape, apply, patch, regex);
    }

    /** `deleteMany(query)`: removes every matched record, keeping the rest in order. */
    method DeleteMany(q: Query, shape: D -> Document) returns (res: DeleteResult)
      modifies this
      ensures docs == Remaining(old(docs), q, shape, regex)
      ensures res.deletedCount == |Selected(old(docs), q, shape, regex)|
      ensures res.deletedCount == |old(docs)| - |docs|
    {
      res := DeleteResult(|Selected(docs, q, shape, regex)|);
      PartitionSizes(docs, q, shape, regex);
      docs := Remaining(docs, q, shape, regex);
    }
  }
}

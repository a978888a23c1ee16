/** The course table and the keyed record store over it
    (bot/classes/SQLHandler.py). The SQLite engine and its sessions are
    replaced by a map from primary key to row. */
module Sql {
  import opened Common

  /** A row of the course table: primary key, course name, optional section code. */
  datatype Course = Course(id: int, name: string, section: Option<string>)

  /** The columns `update` may overwrite. */
  datatype Field = Name | Section

  /** The columns a filter may test. */
  datatype Column = Id | FieldColumn(field: Field)

  /** A column value as a filter or an update gives it; `Null` is Python's None. */
  datatype Value = IntValue(i: int) | Text(s: string) | Null

  /** What `summary()` reports. */
  datatype Counts = Counts(courseCount: nat)

  function FieldValue(c: Course, f: Field): Value {
    match f
    case Name => Text(c.name)
    case Section => if c.section.Some? then Text(c.section.value) else Null
  }

  function ColumnValue(c: Course, col: Column): Value {
    match col
    case Id => IntValue(c.id)
    case FieldColumn(f) => FieldValue(c, f)
  }

  /** An assignment the column types admit: a string name, a string or None section. */
  predicate Fits(f: Field, v: Value) {
    match f
    case Name => v.Text?
    case Section => !v.IntValue?
  }

  predicate WellTyped(u: map<Field, Value>) {
    forall f :: f in u ==> Fits(f, u[f])
  }

  /** `setattr(record, f, v)`. */
  function SetField(c: Course, f: Field, v: Value): (r: Course)
    requires Fits(f, v)
    ensures r.id == c.id
    ensures FieldValue(r, f) == v
    ensures forall g :: g != f ==> FieldValue(r, g) == FieldValue(c, g)
  {
    match f
    case Name => c.(name := v.s)
    case Section => c.(section := if v.Text? then Some(v.s) else None)
  }

  /** Two rows with the same key and the same field values are the same row. */
  lemma SameFieldsSameCourse(a: Course, b: Course)
    requires a.id == b.id
    requires forall f :: FieldValue(a, f) == FieldValue(b, f)
    ensures a == b
  {
    assert FieldValue(a, Name) == FieldValue(b, Name);
    assert FieldValue(a, Section) == FieldValue(b, Section);
  }

  /** The row after every listed field has been overwritten. */
  function ApplyUpdates(c: Course, u: map<Field, Value>): (r: Course)
    requires WellTyped(u)
    ensures r.id == c.id
    ensures forall f :: f in u ==> FieldValue(r, f) == u[f]
    ensures forall f :: f !in u ==> FieldValue(r, f) == FieldValue(c, f)
  {
    var c1 := if Name in u then SetField(c, Name, u[Name]) else c;
    if Section in u then SetField(c1, Section, u[Section]) else c1
  }

  /** Every row is stored under its own primary key. */
  predicate KeysMatchIds(m: map<int, Course>) {
    forall id :: id in m ==> m[id].id == id
  }

  /** A row satisfies every `column == value` clause of the filter. */
  predicate Matches(c: Course, filters: map<Column, Value>) {
    forall col :: col in filters ==> ColumnValue(c, col) == filters[col]
  }

  function MatchingIds(m: map<int, Course>, filters: map<Column, Value>): set<int> {
    set id | id in m && Matches(m[id], filters)
  }

  function MatchingAmong(m: map<int, Course>, ids: set<int>, filters: map<Column, Value>): set<int> {
    set id | id in ids && id in m && Matches(m[id], filters)
  }

  /** Some listed field differs from the stored value. */
  predicate Differs(c: Course, u: map<Field, Value>) {
    exists f :: f in u && FieldValue(c, f) != u[f]
  }

  /** The store's answer to `needs_update(id, u)`. */
  predicate Outdated(m: map<int, Course>, id: int, u: map<Field, Value>) {
    id in m && Differs(m[id], u)
  }

  /** The store after `insert(c)`. */
  function Inserted(m: map<int, Course>, c: Course): map<int, Course> {
    if c.id in m then m else m[c.id := c]
  }

  /** The store after `update(id, u)`. */
  function Updated(m: map<int, Course>, id: int, u: map<Field, Value>): map<int, Course>
    requires WellTyped(u)
  {
    if id in m then m[id := ApplyUpdates(m[id], u)] else m
  }

  /** Insertion never overwrites a row and adds exactly the new one. */
  lemma InsertedAddsOnlyNew(m: map<int, Course>, c: Course)
    requires KeysMatchIds(m)
    ensures KeysMatchIds(Inserted(m, c))
    ensures c.id in m ==> Inserted(m, c) == m
    ensures c.id !in m ==> Inserted(m, c).Keys == m.Keys + {c.id} && Inserted(m, c)[c.id] == c
    ensures forall id :: id in m ==> id in Inserted(m, c) && Inserted(m, c)[id] == m[id]
  {
  }

  /** After a successful update the same update is no longer needed. */
  lemma UpdatedIsCurrent(m: map<int, Course>, id: int, u: map<Field, Value>)
    requires WellTyped(u)
    ensures !Outdated(Updated(m, id, u), id, u)
  {
  }

  /** An update is needed only when it would change the stored row. */
  lemma OutdatedIffUpdateChanges(m: map<int, Course>, id: int, u: map<Field, Value>)
    requires WellTyped(u)
    ensures Outdated(m, id, u) <==> Updated(m, id, u) != m
  {
    if id in m && !Differs(m[id], u) {
      SameFieldsSameCourse(ApplyUpdates(m[id], u), m[id]);
      assert Updated(m, id, u) == m;
    }
    if Outdated(m, id, u) {
      var f :| f in u && FieldValue(m[id], f) != u[f];
      assert FieldValue(Updated(m, id, u)[id], f) == u[f];
    }
  }

  /** An empty update map never needs applying. */
  lemma EmptyUpdateNeverNeeded(m: map<int, Course>, id: int)
    ensures !Outdated(m, id, map[])
  {
  }

  /** `rows` holds each scanned row that matches the filters, and no other. */
  ghost predicate Collected(m: map<int, Course>, filters: map<Column, Value>, seen: set<int>, rows: seq<Course>)
  {
    && KeysMatchIds(m)
    && seen <= m.Keys
    && |rows| == |MatchingAmong(m, seen, filters)|
    && (forall i :: 0 <= i < |rows| ==> rows[i].id in MatchingAmong(m, seen, filters) && m[rows[i].id] == rows[i])
    && (forall id :: id in MatchingAmong(m, seen, filters) ==> m[id] in rows)
  }

  lemma CollectStep(m: map<int, Course>, filters: map<Column, Value>, seen: set<int>, rows: seq<Course>, id: int)
    requires Collected(m, filters, seen, rows)
    requires id in m && id !in seen
    ensures Collected(m, filters, seen + {id}, if Matches(m[id], filters) then rows + [m[id]] else rows)
  {
    MatchingAmongStep(m, seen, id, filters);
  }

  lemma CollectedAll(m: map<int, Course>, filters: map<Column, Value>, rows: seq<Course>)
    requires Collected(m, filters, m.Keys, rows)
    ensures forall c :: c in rows ==> c.id in m && m[c.id] == c && Matches(c, filters)
    ensures forall id :: id in MatchingIds(m, filters) ==> m[id] in rows
    ensures |rows| == |MatchingIds(m, filters)|
  {
    assert MatchingAmong(m, m.Keys, filters) == MatchingIds(m, filters);
  }

  /** Some key of a non-empty key set (the engine's scan order is not modelled). */
  method PickKey(keys: set<int>) returns (k: int)
    requires keys != {}
    ensures k in keys
  {
    ghost var member := MemberOf(keys);
    k :| k in keys;
  }

  /** The query loop of `retrieve`: scans the keys once, keeping the rows that match. */
  method Collect(m: map<int, Course>, filters: map<Column, Value>) returns (rows: seq<Course>)
    requires KeysMatchIds(m)
    ensures forall c :: c in rows ==> c.id in m && m[c.id] == c && Matches(c, filters)
    ensures forall id :: id in MatchingIds(m, filters) ==> m[id] in rows
    ensures |rows| == |MatchingIds(m, filters)|
  {
    rows := [];
    var pending := m.Keys;
    ghost var seen: set<int> := {};
    while pending != {}
      invariant pending + seen == m.Keys && pending !! seen
      invariant Collected(m, filters, seen, rows)
      decreases pending
    {
      var id := PickKey(pending);
      CollectStep(m, filters, seen, rows, id);
      if Matches(m[id], filters) {
        rows := rows + [m[id]];
      }
      pending := pending - {id};
      seen := seen + {id};
    }
    CollectedAll(m, filters, rows);
  }

  /** Scanning one more key adds it to the matches exactly when its row matches. */
  lemma MatchingAmongStep(m: map<int, Course>, seen: set<int>, id: int, filters: map<Column, Value>)
    requires id in m && id !in seen
    ensures id !in MatchingAmong(m, seen, filters)
    ensures MatchingAmong(m, seen + {id}, filters)
            == if Matches(m[id], filters) then MatchingAmong(m, seen, filters) + {id}
               else MatchingAmong(m, seen, filters)
  {
  }

  lemma {:induction false} MatchingIdsWithoutFilters(m: map<int, Course>)
    ensures MatchingIds(m, map[]) == m.Keys
    ensures |MatchingIds(m, map[])| == |m|
  {
    assert forall id :: id in m ==> Matches(m[id], map[]);
    assert MatchingIds(m, map[]) == m.Keys;
  }

  class SQLHandler {
    var courses: map<int, Course>

    ghost predicate Valid()
      reads this
    {
      KeysMatchIds(courses)
    }

    /** Opening the database file; with `dbg` the tables are dropped and recreated. */
    constructor (persisted: map<int, Course>, dbg: bool)
      requires KeysMatchIds(persisted)
      ensures Valid()
      ensures courses == if dbg then map[] else persisted
    {
      courses := if dbg then map[] else persisted;
    }

    /** `check_exists`: some row satisfies every filter clause. */
    function CheckExists(filters: map<Column, Value>): (r: bool)
      reads this
      ensures r <==> exists id :: id in MatchingIds(courses, filters)
    {
      var found := exists id :: id in courses && Matches(courses[id], filters);
      assert found ==> var id :| id in courses && Matches(courses[id], filters); id in MatchingIds(courses, filters);
      found
    }

    /** `insert`: adds the row unless its primary key is already taken. */
    method Insert(c: Course) returns (r: bool)
      requires Valid()
      modifies this
      ensures Valid()
      ensures r <==> c.id !in old(courses)
      ensures courses == Inserted(old(courses), c)
    {
      var found := CheckExists(map[Id := IntValue(c.id)]);
      if found {
        assert c.id in courses by {
          var id :| id in courses && Matches(courses[id], map[Id := IntValue(c.id)]);
          assert ColumnValue(courses[id], Id) == IntValue(c.id);
        }
        return false;
      } else {
        assert c.id in courses ==> c.id in MatchingIds(courses, map[Id := IntValue(c.id)]);
        courses := courses[c.id := c];
        return true;
      }
    }

    /** `needs_update`: the row exists and some listed field differs from it. */
    method NeedsUpdate(id: int, u: map<Field, Value>) returns (r: bool)
      ensures r == Outdated(courses, id, u)
    {
      if id !in courses {
        return false;
      }
      var record := courses[id];
      var pending := u.Keys;
      while pending != {}
        invariant pending <= u.Keys
        invariant forall f :: f in u && f !in pending ==> FieldValue(record, f) == u[f]
        decreases pending
      {
        var f :| f in pending;
        if FieldValue(record, f) != u[f] {
          return true;
        }
        pending := pending - {f};
      }
      return false;
    }

    /** `remove`: deletes the row with that key, if there is one. */
    method Remove(id: int) returns (r: bool)
      requires Valid()
      modifies this
      ensures Valid()
      ensures r <==> id in old(courses)
      ensures courses == old(courses) - {id}
    {
      if id in courses {
        courses := courses - {id};
        return true;
      }
      return false;
    }

    /** `summary`: the number of stored courses, counted over a retrieval without filters. */
    method Summary() returns (s: Counts)
      requires Valid()
      ensures s.courseCount == |courses|
    {
      var all := Retrieve(map[]);
      MatchingIdsWithoutFilters(courses);
      s := Counts(|all|);
    }

    /** `update`: overwrites the listed fields of the row with that key, one `setattr` at a time. */
    method Update(id: int, u: map<Field, Value>) returns (r: bool)
      requires Valid()
      requires WellTyped(u)
      modifies this
      ensures Valid()
      ensures r <==> id in old(courses)
      ensures courses == Updated(old(courses), id, u)
    {
      if id !in courses {
        return false;
      }
      var original := courses[id];
      var record := original;
      var pending := u.Keys;
      while pending != {}
        invariant pending <= u.Keys
        invariant record.id == original.id
        invariant forall f :: f in u && f !in pending ==> FieldValue(record, f) == u[f]
        invariant forall f :: f !in u || f in pending ==> FieldValue(record, f) == FieldValue(original, f)
        decreases pending
      {
        var f :| f in pending;
        record := SetField(record, f, u[f]);
        pending := pending - {f};
      }
      SameFieldsSameCourse(record, ApplyUpdates(original, u));
      courses := courses[id := record];
      return true;
    }

    /** `retrieve`: every row that satisfies all filter clauses, each once;
        without filters, every row. */
    method Retrieve(filters: map<Column, Value>) returns (rows: seq<Course>)
      requires Valid()
      ensures forall c :: c in rows ==> c.id in courses && courses[c.id] == c && Matches(c, filters)
      ensures forall id :: id in MatchingIds(courses, filters) ==> courses[id] in rows
      ensures |rows| == |MatchingIds(courses, filters)|
    {
      rows := Collect(courses, filters);
    }

    /** `check_exists` holds exactly when `retrieve` with the same filters finds a row. */
    method ExistsIffRetrieved(filters: map<Column, Value>) returns (found: bool, rows: seq<Course>)
      requires Valid()
      ensures found == CheckExists(filters)
      ensures forall c :: c in rows ==> c.id in courses && courses[c.id] == c && Matches(c, filters)
      ensures forall id :: id in MatchingIds(courses, filters) ==> courses[id] in rows
      ensures |rows| == |MatchingIds(courses, filters)|
      ensures found <==> rows != []
    {
      found := CheckExists(filters);
      rows := Retrieve(filters);
      if found {
        var id :| id in MatchingIds(courses, filters);
        assert courses[id] in rows;
      }
      if rows != [] {
        assert rows[0].id in MatchingIds(courses, filters);
      }
    }
  }
}

/**
 * The database helper: the schema `onCreate` creates, the version rule of
 * `onUpgrade`, the lazily created process-wide helper, and the Tasks table it
 * gives access to.
 *
 * SQLite itself is not modelled; the table is a map from `_id` to the other
 * columns, and the handle's `insert`, `update`, `delete` and `query` are given
 * by the table functions below, which keep to SQLite's documented behaviour on
 * this schema: a missing column is NULL, a NULL name violates the NOT NULL
 * constraint, a new row gets one more than the largest id (1 in an empty
 * table), an empty WHERE clause selects every row, and `insert` reports every
 * failure as -1 while `update` throws.
 */
module AppDatabase {
  import opened Wrappers
  import opened Decimal
  import opened Platform
  import opened TasksContract

  const DatabaseName: string := "TaskTimer.db"
  const DatabaseVersion: int := 1

  datatype SqlType = SqlInteger | SqlText
  datatype ColumnDef = ColumnDef(name: string, sqlType: SqlType, primaryKey: bool, notNull: bool)

  /** The columns of the `Tasks` table as `onCreate` declares them. */
  const TasksSchema: seq<ColumnDef> := [
    ColumnDef(IdColumn, SqlInteger, true, true),
    ColumnDef(NameColumn, SqlText, false, true),
    ColumnDef(DescriptionColumn, SqlText, false, false),
    ColumnDef(SortOrderColumn, SqlInteger, false, false)
  ]

  /** A value in a `ContentValues` map or a table cell. */
  datatype Value = Null | IntegerValue(i: Long) | TextValue(s: string)

  type ContentValues = map<string, Value>

  /** The columns of a stored task other than its key `_id`. */
  datatype Row = Row(name: Value, description: Value, sortOrder: Value)

  /** The `Tasks` table: each row under its `_id`. */
  type Table = map<Long, Row>

  const EmptyRow: Row := Row(Null, Null, Null)

  /** The cell of a non-key column; NULL for any other name. */
  function Column(r: Row, c: string): Value {
    if c == NameColumn then r.name
    else if c == DescriptionColumn then r.description
    else if c == SortOrderColumn then r.sortOrder
    else Null
  }

  predicate IsColumn(c: string) {
    exists i :: 0 <= i < |TasksSchema| && TasksSchema[i].name == c
  }

  /** A row the schema accepts: every NOT NULL column other than the key holds a value. */
  predicate Admits(r: Row) {
    forall i :: 0 <= i < |TasksSchema| && TasksSchema[i].notNull && !TasksSchema[i].primaryKey ==>
      Column(r, TasksSchema[i].name) != Null
  }

  predicate TableValid(t: Table) {
    forall k :: k in t ==> Admits(t[k])
  }

  /** Of the four columns, only `name` must be present in a stored row. */
  lemma SchemaRequiresName(r: Row)
    ensures Admits(r) <==> r.name != Null
  {
    assert TasksSchema[1].notNull && !TasksSchema[1].primaryKey && TasksSchema[1].name == NameColumn;
    if r.name != Null {
      forall i | 0 <= i < |TasksSchema| && TasksSchema[i].notNull && !TasksSchema[i].primaryKey
        ensures Column(r, TasksSchema[i].name) != Null
      {
        assert i == 1;
      }
    }
  }

  /** The schema declares exactly the four contract columns. */
  lemma SchemaColumns(c: string)
    ensures IsColumn(c) <==> c == IdColumn || c == NameColumn || c == DescriptionColumn || c == SortOrderColumn
  {
    if c == IdColumn { assert TasksSchema[0].name == c; }
    if c == NameColumn { assert TasksSchema[1].name == c; }
    if c == DescriptionColumn { assert TasksSchema[2].name == c; }
    if c == SortOrderColumn { assert TasksSchema[3].name == c; }
  }

  /** `onUpgrade`: version 1 needs no migration; any other old version is fatal. */
  function OnUpgrade(t: Table, oldVersion: int, newVersion: int): (r: Result<Table, Exception>)
    ensures r.Ok? <==> oldVersion == 1
    ensures r.Ok? ==> r.value == t
    ensures r.Err? ==> r.error == IllegalState
  {
    if oldVersion == 1 then Ok(t) else Err(IllegalState)
  }

  /**
   * A WHERE clause: its SQL text and, standing for what SQLite makes of that text and
   * its bound arguments, a test on a row and its id.
   */
  datatype Where = Where(text: string, test: (Long, Row) -> bool)

  /** Whether a row is selected: a null or empty clause selects every row. */
  predicate Selects(w: Option<Where>, id: Long, r: Row) {
    w.None? || |w.value.text| == 0 || w.value.test(id, r)
  }

  function Matching(t: Table, w: Option<Where>): (ids: set<Long>)
    ensures forall k :: k in ids <==> k in t && Selects(w, k, t[k])
  {
    set k | k in t && Selects(w, k, t[k])
  }

  /** The rows a query returns, with their ids (projection and order aside). */
  function Select(t: Table, w: Option<Where>): (r: Table)
    ensures r.Keys == Matching(t, w)
    ensures forall k :: k in r ==> r[k] == t[k]
  {
    map k | k in Matching(t, w) :: t[k]
  }

  /** `ContentValues` written over a row: each named column takes its new value. */
  function Apply(r: Row, cv: ContentValues): (r': Row)
    ensures forall c :: c != IdColumn && IsColumn(c) && c in cv ==> Column(r', c) == cv[c]
    ensures forall c :: c !in cv ==> Column(r', c) == Column(r, c)
  {
    Row(if NameColumn in cv then cv[NameColumn] else r.name,
        if DescriptionColumn in cv then cv[DescriptionColumn] else r.description,
        if SortOrderColumn in cv then cv[SortOrderColumn] else r.sortOrder)
  }

  predicate KnownColumns(cv: ContentValues) {
    forall c :: c in cv ==> IsColumn(c)
  }

  /** `delete(Tasks, where)`: removes the selected rows and counts them. */
  function DeleteWhere(t: Table, w: Option<Where>): (r: (nat, Table))
    ensures r.1.Keys == t.Keys - Matching(t, w)
    ensures forall k :: k in r.1 ==> r.1[k] == t[k]
    ensures r.0 == |t| - |r.1|
  {
    var gone := Matching(t, w);
    assert (t - gone).Keys == t.Keys - gone;
    (|gone|, t - gone)
  }

  /**
   * `update(Tasks, values, where)`: every selected row takes the values; the count is
   * that of the selected rows. Empty values are refused before SQL is built, an
   * unknown column is an SQL error, and a NULL name on any selected row breaks the
   * NOT NULL constraint and aborts the whole statement.
   */
  function UpdateWhere(t: Table, cv: ContentValues, w: Option<Where>): (r: Result<(nat, Table), Exception>)
    requires IdColumn !in cv
    ensures |cv| == 0 ==> r == Err(IllegalArgument)
    ensures |cv| > 0 && !KnownColumns(cv) ==> r == Err(SQLiteFailure)
    ensures |cv| > 0 && KnownColumns(cv) && (exists k :: k in Matching(t, w) && !Admits(Apply(t[k], cv))) ==>
      r == Err(SQLiteConstraint)
    ensures r.Ok? <==> |cv| > 0 && KnownColumns(cv) && forall k :: k in Matching(t, w) ==> Admits(Apply(t[k], cv))
    ensures r.Ok? ==> r.value.1.Keys == t.Keys && r.value.0 == |Matching(t, w)|
    ensures r.Ok? ==> forall k :: k in t ==>
      r.value.1[k] == if k in Matching(t, w) then Apply(t[k], cv) else t[k]
    ensures r.Ok? && TableValid(t) ==> TableValid(r.value.1)
  {
    var hit := Matching(t, w);
    if |cv| == 0 then Err(IllegalArgument)
    else if !KnownColumns(cv) then Err(SQLiteFailure)
    else if exists k :: k in hit && !Admits(Apply(t[k], cv)) then Err(SQLiteConstraint)
    else Ok((|hit|, map k | k in t :: if k in hit then Apply(t[k], cv) else t[k]))
  }

  /** The id an explicit `_id` value names; SQLite accepts integer text as well. */
  function ExplicitRowId(v: Value): Option<Long> {
    match v
    case IntegerValue(k) => Some(k)
    case TextValue(s) => ParseLong(s)
    case Null => None
  }

  /**
   * `insert(Tasks, null, values)`: the new row id and the table after the insert.
   * `autoId` is the id SQLite picks when the values give none (see `NextRowId`).
   * Every failure (unknown column, NULL name, taken or malformed `_id`) is -1 and
   * leaves the table as it was.
   */
  function InsertOutcome(t: Table, cv: ContentValues, autoId: int): (r: (int, Table))
    ensures r == (-1, t) || (LongMin <= r.0 <= LongMax && r.0 !in t && r.1 == t[r.0 := Apply(EmptyRow, cv)])
    ensures r.1 != t ==> Admits(Apply(EmptyRow, cv))
    ensures !Admits(Apply(EmptyRow, cv)) || !KnownColumns(cv) ==> r == (-1, t)
    ensures KnownColumns(cv) && Admits(Apply(EmptyRow, cv)) && (IdColumn !in cv || cv[IdColumn] == Null) ==>
      r == if LongMin <= autoId <= LongMax && autoId !in t then (autoId, t[autoId := Apply(EmptyRow, cv)]) else (-1, t)
    ensures KnownColumns(cv) && Admits(Apply(EmptyRow, cv)) && IdColumn in cv && cv[IdColumn] != Null ==>
      r == match ExplicitRowId(cv[IdColumn])
           case Some(k) => if k !in t then (k, t[k := Apply(EmptyRow, cv)]) else (-1, t)
           case None => (-1, t)
    ensures TableValid(t) ==> TableValid(r.1)
  {
    var row := Apply(EmptyRow, cv);
    if !KnownColumns(cv) || !Admits(row) then (-1, t)
    else if IdColumn !in cv || cv[IdColumn] == Null then
      if LongMin <= autoId <= LongMax && autoId !in t then (autoId, t[autoId := row]) else (-1, t)
    else match ExplicitRowId(cv[IdColumn])
      case None => (-1, t)
      case Some(k) => if k in t then (-1, t) else (k, t[k := row])
  }

  ghost function MaxKey(s: set<Long>): (m: Long)
    requires s != {}
    ensures m in s && forall k :: k in s ==> k <= m
  {
    var x :| x in s;
    assert s == {x} + (s - {x});
    if s - {x} == {} then
      x
    else
      var y := MaxKey(s - {x});
      assert forall k :: k in s ==> k == x || k in s - {x};
      if x >= y then x else y
  }

  /** The row id SQLite gives a new row: one more than the largest, 1 in an empty table. */
  ghost function NextRowIdOf(t: Table): int {
    if t.Keys == {} then 1 else MaxKey(t.Keys) + 1
  }

  /** Computes the id of the next row by one pass over the ids in the table. */
  method NextRowId(t: Table) returns (id: int)
    ensures t.Keys == {} ==> id == 1
    ensures t.Keys != {} ==> id - 1 in t
    ensures forall k :: k in t ==> k < id
    ensures id == NextRowIdOf(t)
  {
    id := 1;
    var rest := t.Keys;
    ghost var seen: set<Long> := {};
    while rest != {}
      invariant rest <= t.Keys && seen == t.Keys - rest
      invariant seen == {} ==> id == 1
      invariant seen != {} ==> id - 1 in seen
      invariant forall k :: k in seen ==> k < id
      decreases rest
    {
      var k :| k in rest;
      if rest == t.Keys || id <= k {
        id := k as int + 1;
      }
      rest := rest - {k};
      seen := seen + {k};
    }
    assert seen == t.Keys;
  }

  /** A task inserted with only its name has NULL description and NULL sort order. */
  lemma InsertNameOnly(t: Table, name: string)
    requires 1 <= NextRowIdOf(t) <= LongMax
    ensures var r := InsertOutcome(t, map[NameColumn := TextValue(name)], NextRowIdOf(t));
      r.0 == NextRowIdOf(t) && r.1[r.0] == Row(TextValue(name), Null, Null)
  {
    var cv := map[NameColumn := TextValue(name)];
    SchemaColumns(NameColumn);
    SchemaRequiresName(Apply(EmptyRow, cv));
    if t.Keys != {} {
      assert NextRowIdOf(t) !in t;
    }
  }

  /** A task without a name never enters the table: the NOT NULL constraint rejects it. */
  lemma InsertWithoutNameFails(t: Table, cv: ContentValues, autoId: int)
    requires NameColumn !in cv || cv[NameColumn] == Null
    ensures InsertOutcome(t, cv, autoId) == (-1, t)
  {
    SchemaRequiresName(Apply(EmptyRow, cv));
  }

  /** What the database file holds when the helper opens it. */
  datatype Context = Context(storedTasks: Option<Table>)

  predicate ContextValid(c: Context) {
    c.storedTasks.Some? ==> TableValid(c.storedTasks.value)
  }

  /** The table the helper works on: the stored one, or the empty table `onCreate` makes. */
  function OpenedTable(c: Context): Table {
    match c.storedTasks
    case None => map[]
    case Some(t) => t
  }

  /** The database helper with the table behind its readable and writable handles. */
  class AppDatabase {
    var tasks: Table

    ghost predicate Valid()
      reads this
    {
      TableValid(tasks)
    }

    constructor (context: Context)
      requires ContextValid(context)
      ensures Valid() && tasks == OpenedTable(context)
    {
      tasks := OpenedTable(context);
    }

    /** `getWritableDatabase().insert(Tasks, null, values)`. */
    method Insert(values: ContentValues) returns (rowId: int)
      requires Valid()
      modifies this
      ensures Valid()
      ensures (rowId, tasks) == InsertOutcome(old(tasks), values, NextRowIdOf(old(tasks)))
    {
      var autoId := NextRowId(tasks);
      rowId, tasks := InsertOutcome(tasks, values, autoId).0, InsertOutcome(tasks, values, autoId).1;
    }

    /** `getWritableDatabase().update(Tasks, values, where)`; on an exception nothing changes. */
    method Update(values: ContentValues, where: Option<Where>) returns (r: Result<nat, Exception>)
      requires Valid() && IdColumn !in values
      modifies this
      ensures Valid()
      ensures UpdateWhere(old(tasks), values, where).Ok? ==>
        r == Ok(UpdateWhere(old(tasks), values, where).value.0) && tasks == UpdateWhere(old(tasks), values, where).value.1
      ensures UpdateWhere(old(tasks), values, where).Err? ==>
        r == Err(UpdateWhere(old(tasks), values, where).error) && tasks == old(tasks)
    {
      match UpdateWhere(tasks, values, where)
      case Ok((n, t)) =>
        r := Ok(n);
        tasks := t;
      case Err(e) =>
        r := Err(e);
    }

    /** `getWritableDatabase().delete(Tasks, where)`. */
    method Delete(where: Option<Where>) returns (count: nat)
      requires Valid()
      modifies this
      ensures Valid()
      ensures (count, tasks) == DeleteWhere(old(tasks), where)
    {
      count, tasks := DeleteWhere(tasks, where).0, DeleteWhere(tasks, where).1;
    }
  }

  /** The static field `AppDatabase.instance`, as one process sees it. */
  class InstanceHolder {
    var instance: AppDatabase?

    constructor ()
      ensures instance == null
    {
      instance := null;
    }

    /**
     * `getInstance(context)`: the helper is made on the first call only, and every
     * call returns that same object (the locking only matters with several threads).
     */
    method GetInstance(context: Context) returns (db: AppDatabase)
      requires ContextValid(context)
      requires instance != null ==> instance.Valid()
      modifies this
      ensures instance == db && db.Valid()
      ensures old(instance) != null ==> db == old(instance)
      ensures old(instance) == null ==> fresh(db) && db.Valid() && db.tasks == OpenedTable(context)
    {
      if instance == null {
        instance := new AppDatabase(context);
      }
      db := instance;
    }
  }

  /** Two calls in a row hand out one helper, whatever the contexts. */
  method GetInstanceTwice(holder: InstanceHolder, c1: Context, c2: Context) returns (a: AppDatabase, b: AppDatabase)
    requires ContextValid(c1) && ContextValid(c2)
    requires holder.instance != null ==> holder.instance.Valid()
    modifies holder
    ensures a == b && holder.instance == a
  {
    a := holder.GetInstance(c1);
    b := holder.GetInstance(c2);
  }
}

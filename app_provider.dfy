/**
 * The content provider: URI dispatch over the Tasks table. A URI names either
 * the whole table (`<authority>/Tasks`) or one task (`<authority>/Tasks/<digits>`);
 * every operation rejects any other URI with `IllegalArgumentException`.
 */
module AppProvider {
  import opened Wrappers
  import opened Decimal
  import opened Platform
  import opened TasksContract
  import opened AppDatabase

  /** The codes the URI matcher returns. */
  const Tasks: int := 100
  const TasksId: int := 101
  const NoMatch: int := -1

  /** One path segment of a matcher pattern: fixed text, or `#` for any run of digits. */
  datatype SegmentPattern = Literal(text: string) | Number

  datatype UriPattern = UriPattern(authority: string, path: seq<SegmentPattern>, code: int)

  /** `buildUriMatcher`: the patterns `Tasks` and `Tasks/#` under the provider's authority. */
  function BuildUriMatcher(): seq<UriPattern> {
    [ UriPattern(ContentAuthority, [Literal(TableName)], Tasks),
      UriPattern(ContentAuthority, [Literal(TableName), Number], TasksId) ]
  }

  /**
   * `#` accepts a segment only if every character is an ASCII digit. `getPathSegments`
   * never yields an empty segment, so `#` never sees empty text.
   */
  predicate SegmentMatches(p: SegmentPattern, s: string) {
    match p
    case Literal(t) => s == t
    case Number => |s| > 0 && AllDigits(s)
  }

  /** A `UriMatcher` pattern matches on the authority and the path segments; the scheme is not looked at. */
  predicate PatternMatches(p: UriPattern, u: Uri) {
    u.authority == p.authority && |u.path| == |p.path| &&
    forall i :: 0 <= i < |p.path| ==> SegmentMatches(p.path[i], u.path[i])
  }

  /** The code of the first pattern that matches, or `NO_MATCH`. */
  function MatchCode(matcher: seq<UriPattern>, u: Uri): int {
    if matcher == [] then NoMatch
    else if PatternMatches(matcher[0], u) then matcher[0].code
    else MatchCode(matcher[1..], u)
  }

  predicate IsCollectionUri(u: Uri) {
    u.authority == ContentAuthority && u.path == [TableName]
  }

  predicate IsItemUri(u: Uri) {
    u.authority == ContentAuthority && |u.path| == 2 && u.path[0] == TableName && |u.path[1]| > 0 && AllDigits(u.path[1])
  }

  /** `mUriMatcher.match(uri)`: the two shapes and nothing else. */
  function Match(u: Uri): (code: int)
    ensures code == Tasks <==> IsCollectionUri(u)
    ensures code == TasksId <==> IsItemUri(u)
    ensures code == Tasks || code == TasksId || code == NoMatch
  {
    var m := BuildUriMatcher();
    assert PatternMatches(m[0], u) <==> IsCollectionUri(u);
    assert PatternMatches(m[1], u) <==> IsItemUri(u) by {
      if IsItemUri(u) {
        assert SegmentMatches(m[1].path[0], u.path[0]) && SegmentMatches(m[1].path[1], u.path[1]);
      }
    }
    assert m[1..][0] == m[1] && m[1..][1..] == [];
    assert MatchCode(m[1..][1..], u) == NoMatch;
    assert MatchCode(m[1..], u) == if PatternMatches(m[1], u) then TasksId else NoMatch;
    assert m[0].code == Tasks && m[1].code == TasksId;
    MatchCode(m, u)
  }

  /** `getType(uri)`: the directory type for the table, the item type for one task. */
  function GetType(u: Uri): (r: Result<string, Exception>)
    ensures r == Ok(ContentType) <==> IsCollectionUri(u)
    ensures r == Ok(ContentItemType) <==> IsItemUri(u)
    ensures r.Err? <==> !IsCollectionUri(u) && !IsItemUri(u)
    ensures r.Err? ==> r.error == IllegalArgument
  {
    MimeTypesShape();
    var m := Match(u);
    if m == Tasks then Ok(ContentType)
    else if m == TasksId then Ok(ContentItemType)
    else Err(IllegalArgument)
  }

  predicate HasText(selection: Option<Where>) {
    selection.Some? && |selection.value.text| > 0
  }

  /** What `_id = N` combined with the caller's selection selects. */
  function ItemFilter(id: Long, selection: Option<Where>): (Long, Row) -> bool {
    (k: Long, r: Row) => k == id && Selects(selection, k, r)
  }

  /**
   * The criterion `delete` and `update` use on an item URI: `_id = N`, followed by
   * ` AND (selection)` only when the caller gave a non-empty selection.
   */
  function ItemCriterion(id: Long, selection: Option<Where>): (w: Where)
    ensures |w.text| > 0
    ensures forall k, r :: Selects(Some(w), k, r) <==> k == id && Selects(selection, k, r)
  {
    Where(IdColumn + " = " + SignedToString(id)
            + (if HasText(selection) then " AND (" + selection.value.text + ")" else ""),
          ItemFilter(id, selection))
  }

  /** The restriction `query` appends on an item URI, combined with the caller's selection. */
  function QueryItemWhere(id: Long, selection: Option<Where>): (w: Where)
    ensures forall k, r :: Selects(Some(w), k, r) <==> k == id && Selects(selection, k, r)
  {
    Where(IdColumn + " = " + SignedToString(id), ItemFilter(id, selection))
  }

  /** `query(uri, projection, selection, args, sortOrder)`: the rows of the result. */
  function QuerySpec(t: Table, uri: Uri, selection: Option<Where>): Result<Table, Exception> {
    var m := Match(uri);
    if m == Tasks then Ok(Select(t, selection))
    else if m == TasksId then
      match GetTaskId(uri)
      case Ok(id) => Ok(Select(t, Some(QueryItemWhere(id, selection))))
      case Err(e) => Err(e)
    else Err(IllegalArgument)
  }

  /** `insert(uri, values)`: its result and the table after it. */
  ghost function InsertSpec(t: Table, uri: Uri, values: ContentValues): (Result<Uri, Exception>, Table) {
    if Match(uri) != Tasks then (Err(IllegalArgument), t)
    else
      var out := InsertOutcome(t, values, NextRowIdOf(t));
      if out.0 >= 0 then (Ok(BuildTaskUri(out.0)), out.1) else (Err(SQLFailure), out.1)
  }

  /** `delete(uri, selection, args)`: its result and the table after it. */
  function DeleteSpec(t: Table, uri: Uri, selection: Option<Where>): (Result<nat, Exception>, Table) {
    var m := Match(uri);
    if m == Tasks then
      var out := DeleteWhere(t, selection);
      (Ok(out.0), out.1)
    else if m == TasksId then
      match GetTaskId(uri)
      case Ok(id) =>
        var out := DeleteWhere(t, Some(ItemCriterion(id, selection)));
        (Ok(out.0), out.1)
      case Err(e) => (Err(e), t)
    else (Err(IllegalArgument), t)
  }

  /** `update(uri, values, selection, args)`: its result and the table after it. */
  function UpdateSpec(t: Table, uri: Uri, values: ContentValues, selection: Option<Where>): (Result<nat, Exception>, Table)
    requires IdColumn !in values
  {
    var m := Match(uri);
    var where := if m == Tasks then Ok(selection)
      else if m == TasksId then
        match GetTaskId(uri)
        case Ok(id) => Ok(Some(ItemCriterion(id, selection)))
        case Err(e) => Err(e)
      else Err(IllegalArgument);
    match where
    case Err(e) => (Err(e), t)
    case Ok(w) =>
      match UpdateWhere(t, values, w)
      case Ok(out) => (Ok(out.0), out.1)
      case Err(e) => (Err(e), t)
  }

  class AppProvider {
    var openHelper: AppDatabase?

    constructor ()
      ensures openHelper == null
    {
      openHelper := null;
    }

    /** `onCreate`: takes the process-wide database helper. */
    method OnCreate(holder: InstanceHolder, context: Context) returns (created: bool)
      requires ContextValid(context)
      requires holder.instance != null ==> holder.instance.Valid()
      modifies this, holder
      ensures created && openHelper == holder.instance && openHelper != null && openHelper.Valid()
      ensures old(holder.instance) != null ==> openHelper == old(holder.instance)
    {
      openHelper := holder.GetInstance(context);
      created := true;
    }

    method Query(uri: Uri, selection: Option<Where>) returns (r: Result<Table, Exception>)
      requires openHelper != null
      ensures r == QuerySpec(openHelper.tasks, uri, selection)
    {
      var match_ := Match(uri);
      var where: Option<Where>;
      if match_ == Tasks {
        where := selection;
      } else if match_ == TasksId {
        var taskId := GetTaskId(uri);
        if taskId.Err? {
          return Err(taskId.error);
        }
        where := Some(QueryItemWhere(taskId.value, selection));
      } else {
        return Err(IllegalArgument);
      }
      r := Ok(Select(openHelper.tasks, where));
    }

    method Insert(uri: Uri, values: ContentValues) returns (r: Result<Uri, Exception>)
      requires openHelper != null && openHelper.Valid()
      modifies openHelper
      ensures openHelper == old(openHelper) && openHelper.Valid()
      ensures (r, openHelper.tasks) == InsertSpec(old(openHelper.tasks), uri, values)
    {
      if Match(uri) != Tasks {
        return Err(IllegalArgument);
      }
      var recordId := openHelper.Insert(values);
      if recordId >= 0 {
        r := Ok(BuildTaskUri(recordId));
      } else {
        r := Err(SQLFailure);
      }
    }

    /** The WHERE clause `delete` and `update` hand to the database for an item URI, built up as `AppProvider.delete` and `AppProvider.update` do. */
    method ItemSelection(uri: Uri, selection: Option<Where>) returns (r: Result<Where, Exception>)
      requires IsItemUri(uri)
      ensures GetTaskId(uri).Err? ==> r == Err(GetTaskId(uri).error)
      ensures GetTaskId(uri).Ok? ==> r == Ok(ItemCriterion(GetTaskId(uri).value, selection))
    {
      var taskId := GetTaskId(uri);
      if taskId.Err? {
        return Err(taskId.error);
      }
      var selectionCriteria := IdColumn + " = " + SignedToString(taskId.value);
      if selection.Some? && |selection.value.text| > 0 {
        selectionCriteria := selectionCriteria + " AND (" + selection.value.text + ")";
      }
      assert selectionCriteria == ItemCriterion(taskId.value, selection).text;
      r := Ok(Where(selectionCriteria, ItemFilter(taskId.value, selection)));
    }

    method Delete(uri: Uri, selection: Option<Where>) returns (r: Result<nat, Exception>)
      requires openHelper != null && openHelper.Valid()
      modifies openHelper
      ensures openHelper == old(openHelper) && openHelper.Valid()
      ensures (r, openHelper.tasks) == DeleteSpec(old(openHelper.tasks), uri, selection)
    {
      var match_ := Match(uri);
      var count: nat;
      if match_ == Tasks {
        count := openHelper.Delete(selection);
      } else if match_ == TasksId {
        var criteria := ItemSelection(uri, selection);
        if criteria.Err? {
          return Err(criteria.error);
        }
        count := openHelper.Delete(Some(criteria.value));
      } else {
        return Err(IllegalArgument);
      }
      r := Ok(count);
    }

    method Update(uri: Uri, values: ContentValues, selection: Option<Where>) returns (r: Result<nat, Exception>)
      requires openHelper != null && openHelper.Valid()
      requires IdColumn !in values
      modifies openHelper
      ensures openHelper == old(openHelper) && openHelper.Valid()
      ensures (r, openHelper.tasks) == UpdateSpec(old(openHelper.tasks), uri, values, selection)
    {
      var match_ := Match(uri);
      if match_ == Tasks {
        r := openHelper.Update(values, selection);
      } else if match_ == TasksId {
        var criteria := ItemSelection(uri, selection);
        if criteria.Err? {
          return Err(criteria.error);
        }
        r := openHelper.Update(values, Some(criteria.value));
      } else {
        r := Err(IllegalArgument);
      }
    }
  }

  /** Every operation rejects a URI of neither shape, and nothing changes. */
  lemma UnknownUriRejected(t: Table, uri: Uri, values: ContentValues, selection: Option<Where>)
    requires !IsCollectionUri(uri) && !IsItemUri(uri)
    requires IdColumn !in values
    ensures QuerySpec(t, uri, selection) == Err(IllegalArgument)
    ensures GetType(uri) == Err(IllegalArgument)
    ensures InsertSpec(t, uri, values) == (Err(IllegalArgument), t)
    ensures DeleteSpec(t, uri, selection) == (Err(IllegalArgument), t)
    ensures UpdateSpec(t, uri, values, selection) == (Err(IllegalArgument), t)
  {
  }

  /** `insert` accepts the collection URI only: an item URI is unknown to it. */
  lemma InsertOnItemUriRejected(t: Table, uri: Uri, values: ContentValues)
    requires IsItemUri(uri)
    ensures InsertSpec(t, uri, values) == (Err(IllegalArgument), t)
  {
  }

  /** A task URI with a non-negative id has the item shape, so its type is the item type. */
  lemma TaskUriIsItemUri(id: Long)
    requires id >= 0
    ensures IsItemUri(BuildTaskUri(id)) && !IsCollectionUri(BuildTaskUri(id))
    ensures GetType(BuildTaskUri(id)) == Ok(ContentItemType)
    ensures GetType(ContentUri) == Ok(ContentType)
  {
    SignedToStringDigits(id);
  }

  /** A task URI built from a negative id is not recognised. */
  lemma NegativeTaskUriUnknown(id: Long)
    requires id < 0
    ensures !IsItemUri(BuildTaskUri(id)) && !IsCollectionUri(BuildTaskUri(id))
  {
    SignedToStringDigits(id);
  }

  /**
   * A query of a task's URI returns that task's row alone, and returns it exactly
   * when the row exists and meets the caller's selection.
   */
  lemma ItemQueryReturnsOnlyItsRow(t: Table, id: Long, selection: Option<Where>)
    requires id >= 0
    ensures QuerySpec(t, BuildTaskUri(id), selection)
      == Ok(if id in t && Selects(selection, id, t[id]) then map[id := t[id]] else map[])
  {
    TaskUriIsItemUri(id);
    TaskIdRoundTrip(id);
    var q := Select(t, Some(QueryItemWhere(id, selection)));
    if id in t && Selects(selection, id, t[id]) {
      assert q.Keys == {id};
      assert q == map[id := t[id]];
    } else {
      assert q.Keys == {};
    }
  }

  /**
   * An id segment of digits too large for a `long` still has the item shape, so the
   * URI is not unknown: `getTaskId` throws `NumberFormatException` instead, and
   * nothing changes.
   */
  lemma OverlongIdIsNumberFormat(t: Table, u: Uri, values: ContentValues, selection: Option<Where>)
    requires IsItemUri(u) && Decimal.Value(u.path[1]) > LongMax
    requires IdColumn !in values
    ensures GetTaskId(u) == Err(NumberFormat)
    ensures QuerySpec(t, u, selection) == Err(NumberFormat)
    ensures DeleteSpec(t, u, selection) == (Err(NumberFormat), t)
    ensures UpdateSpec(t, u, values, selection) == (Err(NumberFormat), t)
  {
    assert !(u.path[1][0] == '-' || u.path[1][0] == '+');
  }

  /** `Tasks/99999999999999999999` is such a URI. */
  lemma OverlongIdExample()
    ensures var u := Uri("content", ContentAuthority, [TableName, "99999999999999999999"]);
      IsItemUri(u) && Decimal.Value(u.path[1]) > LongMax
  {
    OverlongNumeralRejected("99999999999999999999");
  }

  /**
   * A successful insert returns the URI of a new row, whose id reads back from the
   * URI, and querying that URI finds exactly the new row.
   */
  lemma InsertReturnsNewTaskUri(t: Table, values: ContentValues)
    ensures var (r, t') := InsertSpec(t, ContentUri, values);
      r.Ok? ==>
        && IsItemUri(r.value)
        && GetTaskId(r.value).Ok?
        && var id := GetTaskId(r.value).value;
        && id >= 0 && id !in t && id in t'
        && r.value == BuildTaskUri(id)
        && t' == t[id := Apply(EmptyRow, values)]
        && QuerySpec(t', r.value, None) == Ok(map[id := t'[id]])
  {
    var (r, t') := InsertSpec(t, ContentUri, values);
    if r.Ok? {
      var out := InsertOutcome(t, values, NextRowIdOf(t));
      var id: Long := out.0;
      assert r.value == BuildTaskUri(id);
      TaskIdRoundTrip(id);
      TaskUriIsItemUri(id);
      var q := Select(t', Some(QueryItemWhere(id, None)));
      assert q.Keys == {id};
      assert q == map[id := t'[id]];
    }
  }

  /** Insert fails with `SQLException`, and stores nothing, when the values carry no name. */
  lemma InsertWithoutNameFailsSQL(t: Table, values: ContentValues)
    requires NameColumn !in values || values[NameColumn] == Null
    ensures InsertSpec(t, ContentUri, values) == (Err(SQLFailure), t)
  {
    InsertWithoutNameFails(t, values, NextRowIdOf(t));
  }

  /**
   * Delete on an item URI removes at most the addressed row (when it also meets the
   * caller's selection) and leaves every other row as it was.
   */
  lemma ItemDeleteTouchesOnlyItsRow(t: Table, id: Long, selection: Option<Where>)
    requires id >= 0
    ensures var (r, t') := DeleteSpec(t, BuildTaskUri(id), selection);
      && r.Ok? && r.value <= 1
      && (id in t' <==> id in t && !Selects(selection, id, t[id]))
      && r.value == (if id in t && Selects(selection, id, t[id]) then 1 else 0)
      && forall k :: k != id ==> (k in t' <==> k in t) && (k in t' ==> t'[k] == t[k])
  {
    TaskUriIsItemUri(id);
    TaskIdRoundTrip(id);
    var hit := Matching(t, Some(ItemCriterion(id, selection)));
    if id in t && Selects(selection, id, t[id]) {
      assert hit == {id};
    } else {
      assert hit == {};
    }
  }

  /** Delete on the collection URI with no selection empties the table. */
  lemma CollectionDeleteAll(t: Table)
    ensures DeleteSpec(t, ContentUri, None) == (Ok(|t|), map[])
  {
    assert Matching(t, None) == t.Keys;
  }

  /**
   * `update` on the collection URI with a null selection writes the values into every row
   * and reports their number; it fails exactly as the database's update does.
   */
  lemma CollectionUpdateAll(t: Table, values: ContentValues)
    requires IdColumn !in values
    ensures var (r, t') := UpdateSpec(t, ContentUri, values, None);
      && (r.Ok? <==> |values| > 0 && KnownColumns(values) && forall k :: k in t ==> Admits(Apply(t[k], values)))
      && (r.Ok? ==> r.value == |t| && t' == map k | k in t :: Apply(t[k], values))
      && (r.Err? ==> t' == t && r == Err(UpdateWhere(t, values, None).error))
  {
    assert Matching(t, None) == t.Keys;
    ContentUriText();
  }

  /** After deleting a task by its URI, querying that URI finds nothing. */
  lemma DeleteThenQueryEmpty(t: Table, id: Long)
    requires id >= 0
    ensures var (_, t') := DeleteSpec(t, BuildTaskUri(id), None);
      QuerySpec(t', BuildTaskUri(id), None) == Ok(map[])
  {
    ItemDeleteTouchesOnlyItsRow(t, id, None);
    var (_, t') := DeleteSpec(t, BuildTaskUri(id), None);
    assert Select(t', Some(QueryItemWhere(id, None))).Keys == {};
  }

  /**
   * A successful update on an item URI writes the values into the addressed row only,
   * and reports one row when that row exists and meets the caller's selection.
   */
  lemma ItemUpdateTouchesOnlyItsRow(t: Table, id: Long, values: ContentValues, selection: Option<Where>)
    requires id >= 0 && IdColumn !in values
    ensures var (r, t') := UpdateSpec(t, BuildTaskUri(id), values, selection);
      r.Ok? ==>
        && t'.Keys == t.Keys
        && r.value == (if id in t && Selects(selection, id, t[id]) then 1 else 0)
        && (id in t ==> t'[id] == if Selects(selection, id, t[id]) then Apply(t[id], values) else t[id])
        && forall k :: k in t && k != id ==> t'[k] == t[k]
  {
    TaskUriIsItemUri(id);
    TaskIdRoundTrip(id);
    var hit := Matching(t, Some(ItemCriterion(id, selection)));
    if id in t && Selects(selection, id, t[id]) {
      assert hit == {id};
    } else {
      assert hit == {};
    }
  }

  /** Renaming a stored task through its URI changes its name and nothing else. */
  lemma RenameChangesOnlyName(t: Table, id: Long, name: string)
    requires id >= 0 && id in t
    ensures UpdateSpec(t, BuildTaskUri(id), map[NameColumn := TextValue(name)], None)
      == (Ok(1), t[id := t[id].(name := TextValue(name))])
  {
    var values := map[NameColumn := TextValue(name)];
    ItemUpdateTouchesOnlyItsRow(t, id, values, None);
    SchemaColumns(NameColumn);
    SchemaRequiresName(Apply(t[id], values));
    assert KnownColumns(values);
    var hit := Matching(t, Some(ItemCriterion(id, None)));
    assert hit == {id};
    assert forall k :: k in hit ==> Admits(Apply(t[k], values));
    TaskUriIsItemUri(id);
    TaskIdRoundTrip(id);
    assert UpdateWhere(t, values, Some(ItemCriterion(id, None))).Ok?;
    var (r, t') := UpdateSpec(t, BuildTaskUri(id), values, None);
    assert r.Ok?;
    assert t' == t[id := t[id].(name := TextValue(name))];
  }

  /**
   * A row stored under a free explicit negative id is inserted, yet `insert` reports
   * the negative row id as a failure.
   */
  lemma NegativeRowIdStoredButReported(t: Table, values: ContentValues, k: Long)
    requires KnownColumns(values) && Admits(Apply(EmptyRow, values))
    requires IdColumn in values && ExplicitRowId(values[IdColumn]) == Some(k)
    requires k < 0 && k !in t
    ensures InsertSpec(t, ContentUri, values) == (Err(SQLFailure), t[k := Apply(EmptyRow, values)])
  {
    ContentUriText();
  }

  /** For instance, `_id` -5 with the name "x" in an empty table. */
  lemma NegativeRowIdExample()
    ensures var values := map[NameColumn := TextValue("x"), IdColumn := IntegerValue(-5)];
      InsertSpec(map[], ContentUri, values) == (Err(SQLFailure), map[-5 := Row(TextValue("x"), Null, Null)])
  {
    var values := map[NameColumn := TextValue("x"), IdColumn := IntegerValue(-5)];
    SchemaColumns(NameColumn);
    SchemaColumns(IdColumn);
    assert KnownColumns(values);
    SchemaRequiresName(Apply(EmptyRow, values));
    NegativeRowIdStoredButReported(map[], values, -5);
  }
}

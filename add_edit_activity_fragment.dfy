/**
 * The add/edit screen: it decides from its arguments whether it edits a task or
 * adds one, and on a save click turns the form into at most one provider call
 * (an update of the changed fields, or an insert of a named task), then tells
 * its host activity that saving is done.
 */
module AddEditActivityFragment {
  import opened Wrappers
  import opened Decimal
  import opened Platform
  import opened TasksContract
  import opened AppDatabase
  import opened AppProvider

  datatype FragmentEditMode = Edit | Add

  /** The argument key a task travels under: `Task.class.getSimpleName()`. */
  const TaskKey: string := "Task"

  /** The texts of the name, description and sort-order fields. */
  datatype Fields = Fields(name: string, description: string, sortOrder: string)

  /** The content-resolver call a save click makes, if any. */
  datatype SaveRequest =
    | NoWrite
    | UpdateRequest(uri: Uri, values: ContentValues, selection: string, selectionArgs: seq<string>)
    | InsertRequest(uri: Uri, values: ContentValues)

  /** The form as the edit mode fills it from a task. */
  function Prefilled(t: Task): Fields {
    Fields(t.name, t.description, SignedToString(t.sortOrder))
  }

  /** `Integer.parseInt` accepts the sort-order text, or the text is empty. */
  predicate SortOrderParses(text: string) {
    text == "" || ParseInt(text).Some?
  }

  /** The sort order a save uses: 0 for an empty field, otherwise the number typed. */
  function SortOrderOf(text: string): (so: Int32)
    requires SortOrderParses(text)
    ensures text == "" ==> so == 0
    ensures text != "" ==> ParseInt(text) == Some(so)
  {
    if |text| > 0 then ParseInt(text).value else 0
  }

  /** The values of an edit hold exactly the fields whose new text differs from the task. */
  ghost predicate ChangedFieldsOnly(values: ContentValues, t: Task, f: Fields)
    requires SortOrderParses(f.sortOrder)
  {
    && (NameColumn in values <==> f.name != t.name)
    && (DescriptionColumn in values <==> f.description != t.description)
    && (SortOrderColumn in values <==> SortOrderOf(f.sortOrder) != t.sortOrder)
    && (NameColumn in values ==> values[NameColumn] == TextValue(f.name))
    && (DescriptionColumn in values ==> values[DescriptionColumn] == TextValue(f.description))
    && (SortOrderColumn in values ==> values[SortOrderColumn] == TextValue(f.sortOrder))
    && forall c :: c in values ==> c == NameColumn || c == DescriptionColumn || c == SortOrderColumn
  }

  /** The values of an add: all three fields, the sort order as a number. */
  function AddValues(f: Fields): ContentValues
    requires SortOrderParses(f.sortOrder)
  {
    map[NameColumn := TextValue(f.name), DescriptionColumn := TextValue(f.description),
        SortOrderColumn := IntegerValue(SortOrderOf(f.sortOrder))]
  }

  /** The selection an edit passes with the collection URI: `_id = ?`. */
  const IdSelection: string := IdColumn + " = ?"

  /**
   * The save rule. In edit mode an update of the Tasks URI, selecting the task by
   * id, is issued exactly when some field changed, and writes only the changed
   * fields; in add mode an insert of all three fields is issued exactly when the
   * name is non-empty.
   */
  function SaveRequestFor(mode: FragmentEditMode, task: Option<Task>, f: Fields): (req: SaveRequest)
    requires mode == Edit ==> task.Some?
    requires SortOrderParses(f.sortOrder)
    ensures mode == Edit ==>
      var t := task.value;
      && (req.UpdateRequest? <==>
            f.name != t.name || f.description != t.description || SortOrderOf(f.sortOrder) != t.sortOrder)
      && (req.UpdateRequest? ==>
            && req.uri == ContentUri && IdColumn !in req.values && req.selection == IdSelection
            && req.selectionArgs == [SignedToString(t.id)]
            && ChangedFieldsOnly(req.values, t, f))
      && (!req.UpdateRequest? ==> req == NoWrite)
    ensures mode == Add ==>
      && (req.InsertRequest? <==> |f.name| > 0)
      && (req.InsertRequest? ==> req.uri == ContentUri && req.values == AddValues(f))
      && (!req.InsertRequest? ==> req == NoWrite)
  {
    var so := SortOrderOf(f.sortOrder);
    match mode
    case Edit =>
      var t := task.value;
      var v1: ContentValues := if f.name != t.name then map[NameColumn := TextValue(f.name)] else map[];
      var v2 := if f.description != t.description then v1[DescriptionColumn := TextValue(f.description)] else v1;
      var v3 := if so != t.sortOrder then v2[SortOrderColumn := TextValue(f.sortOrder)] else v2;
      assert f.name != t.name ==> NameColumn in v3;
      assert f.description != t.description ==> DescriptionColumn in v3;
      assert so != t.sortOrder ==> SortOrderColumn in v3;
      if |v3| != 0 then UpdateRequest(ContentUri, v3, IdSelection, [SignedToString(t.id)]) else NoWrite
    case Add =>
      if |f.name| > 0 then InsertRequest(ContentUri, AddValues(f)) else NoWrite
  }

  class AddEditActivityFragment {
    var arguments: Option<Bundle>
    var mode: Option<FragmentEditMode>
    var task: Option<Task>
    var onSaveClicked: Option<Host>

    /** Edit mode always has the task it edits. */
    ghost predicate Valid()
      reads this
    {
      mode == Some(Edit) ==> task.Some?
    }

    constructor (arguments: Option<Bundle>)
      ensures this.arguments == arguments && mode == None && task == None && onSaveClicked == None
      ensures Valid()
    {
      this.arguments := arguments;
      mode, task, onSaveClicked := None, None, None;
    }

    /** `canClose`: the form never closes without asking. */
    function CanClose(): (b: bool)
      ensures !b
    {
      false
    }

    /** `onAttach`: the host must implement `OnSaveClicked`, and becomes the listener. */
    method OnAttach(activity: Host) returns (r: Outcome<Exception>)
      modifies this
      ensures activity.implementsOnSaveClicked ==> r == Pass && onSaveClicked == Some(activity)
      ensures !activity.implementsOnSaveClicked ==> r == Fail(ClassCast) && onSaveClicked == old(onSaveClicked)
      ensures arguments == old(arguments) && mode == old(mode) && task == old(task)
    {
      if !activity.implementsOnSaveClicked {
        return Fail(ClassCast);
      }
      onSaveClicked := Some(activity);
      r := Pass;
    }

    /** `onDetach`: forgets the listener. */
    method OnDetach()
      modifies this
      ensures onSaveClicked == None
      ensures arguments == old(arguments) && mode == old(mode) && task == old(task)
    {
      onSaveClicked := None;
    }

    /**
     * `onCreateView`: edit mode exactly when there are arguments holding a task, whose
     * fields then fill the form; add mode otherwise. A non-task under the task key
     * fails the cast.
     */
    method OnCreateView() returns (r: Result<Option<Fields>, Exception>)
      modifies this
      ensures arguments == old(arguments) && onSaveClicked == old(onSaveClicked)
      ensures r.Ok? ==> mode.Some? && Valid()
      ensures r.Ok? ==> (mode == Some(Edit) <==> arguments.Some? && GetTask(arguments.value, TaskKey).Ok?
                                                   && GetTask(arguments.value, TaskKey).value.Some?)
      ensures r.Ok? && mode == Some(Edit) ==>
        task == GetTask(arguments.value, TaskKey).value && r.value == Some(Prefilled(task.value))
      ensures r.Ok? && mode == Some(Add) ==> task == None && r.value == None
      ensures r.Err? <==> arguments.Some? && GetTask(arguments.value, TaskKey).Err?
      ensures r.Err? ==> r.error == ClassCast && mode == old(mode) && task == old(task)
    {
      if arguments.Some? {
        var found := GetTask(arguments.value, TaskKey);
        if found.Err? {
          return Err(found.error);
        }
        task := found.value;
        if task.Some? {
          mode := Some(Edit);
          r := Ok(Some(Prefilled(task.value)));
        } else {
          mode := Some(Add);
          r := Ok(None);
        }
      } else {
        task := None;
        mode := Some(Add);
        r := Ok(None);
      }
    }

    /**
     * The save button's click: builds the values step by step and makes at most one
     * provider call, the update selecting the task by id. The listener is notified
     * only when that call returns; an exception from the provider ends the click
     * before the notification.
     */
    method OnSaveClick(f: Fields, provider: AppProvider)
        returns (request: SaveRequest, failure: Option<Exception>, notified: Option<Host>)
      requires mode.Some? && Valid()
      requires SortOrderParses(f.sortOrder)
      requires provider.openHelper != null && provider.openHelper.Valid()
      modifies provider.openHelper
      ensures provider.openHelper == old(provider.openHelper) && provider.openHelper.Valid()
      ensures request == SaveRequestFor(mode.value, task, f)
      ensures request.NoWrite? ==> failure == None && provider.openHelper.tasks == old(provider.openHelper.tasks)
      ensures request.UpdateRequest? ==>
        var (r, t') := UpdateSpec(old(provider.openHelper.tasks), request.uri, request.values,
                                  Some(IdSelectionBound(task.value.id)));
        provider.openHelper.tasks == t' && failure == (if r.Err? then Some(r.error) else None)
      ensures request.InsertRequest? ==>
        var (r, t') := InsertSpec(old(provider.openHelper.tasks), request.uri, request.values);
        provider.openHelper.tasks == t' && failure == (if r.Err? then Some(r.error) else None)
      ensures notified == if failure.None? then onSaveClicked else None
    {
      var so: Int32;
      if |f.sortOrder| > 0 {
        so := ParseInt(f.sortOrder).value;
      } else {
        so := 0;
      }
      var values: ContentValues := map[];
      request := NoWrite;
      failure := None;
      match mode.value {
        case Edit =>
          var t := task.value;
          if f.name != t.name {
            values := values[NameColumn := TextValue(f.name)];
          }
          if f.description != t.description {
            values := values[DescriptionColumn := TextValue(f.description)];
          }
          if so != t.sortOrder {
            values := values[SortOrderColumn := TextValue(f.sortOrder)];
          }
          if |values| != 0 {
            request := UpdateRequest(ContentUri, values, IdColumn + " = ?", [SignedToString(t.id)]);
            ColumnNamesDistinct();
            var count := provider.Update(ContentUri, values, Some(IdSelectionBound(t.id)));
            if count.Err? {
              failure := Some(count.error);
            }
          }
        case Add =>
          if |f.name| > 0 {
            values := values[NameColumn := TextValue(f.name)];
            values := values[DescriptionColumn := TextValue(f.description)];
            values := values[SortOrderColumn := IntegerValue(so)];
            request := InsertRequest(ContentUri, values);
            var uri := provider.Insert(ContentUri, values);
            if uri.Err? {
              failure := Some(uri.error);
            }
          }
      }
      if failure.None? {
        notified := onSaveClicked;
      } else {
        notified := None;
      }
    }
  }

  /** Saving a form left as the edit mode filled it writes nothing. */
  lemma UnchangedFormWritesNothing(t: Task)
    ensures SortOrderParses(Prefilled(t).sortOrder)
    ensures SaveRequestFor(Edit, Some(t), Prefilled(t)) == NoWrite
  {
    IntRoundTrip(t.sortOrder);
  }

  /** What the database makes of the edit's selection `_id = ?` bound to the task's id. */
  function IdSelectionBound(id: Long): (w: Where)
    ensures forall k, r :: Selects(Some(w), k, r) <==> k == id
  {
    Where(IdSelection, (k: Long, r: Row) => k == id)
  }

  /**
   * The update an edit issues, carried out by the provider on the Tasks URI, changes
   * the edited task's row alone, and in it exactly the changed fields.
   */
  lemma EditSaveTouchesOnlyTheTask(tbl: Table, t: Task, f: Fields)
    requires TableValid(tbl)
    requires SortOrderParses(f.sortOrder)
    requires SaveRequestFor(Edit, Some(t), f).UpdateRequest?
    ensures var req := SaveRequestFor(Edit, Some(t), f);
      IdColumn !in req.values &&
      var (r, tbl') := UpdateSpec(tbl, req.uri, req.values, Some(IdSelectionBound(t.id)));
      && r == Ok(if t.id in tbl then 1 else 0)
      && tbl'.Keys == tbl.Keys
      && (t.id in tbl ==> tbl'[t.id] == Apply(tbl[t.id], req.values))
      && forall k :: k in tbl && k != t.id ==> tbl'[k] == tbl[k]
  {
    var req := SaveRequestFor(Edit, Some(t), f);
    var w := Some(IdSelectionBound(t.id));
    assert IdColumn !in req.values;
    ContentUriText();
    assert Match(ContentUri) == Tasks;
    forall c | c in req.values ensures IsColumn(c) {
      SchemaColumns(c);
    }
    var hit := Matching(tbl, w);
    if t.id in tbl {
      assert hit == {t.id};
      SchemaRequiresName(tbl[t.id]);
      SchemaRequiresName(Apply(tbl[t.id], req.values));
      assert Admits(Apply(tbl[t.id], req.values));
      assert UpdateWhere(tbl, req.values, w).Ok?;
    } else {
      assert hit == {};
    }
  }

  /**
   * The insert an add issues stores one new row holding the form's name, description
   * and sort order, and returns its URI, whenever the next row id is not negative.
   */
  lemma AddSaveInsertsTheForm(tbl: Table, f: Fields)
    requires SortOrderParses(f.sortOrder) && |f.name| > 0
    requires 0 <= NextRowIdOf(tbl) <= LongMax
    ensures var req := SaveRequestFor(Add, None, f);
      var (r, tbl') := InsertSpec(tbl, req.uri, req.values);
      var id: Long := NextRowIdOf(tbl);
      && r == Ok(BuildTaskUri(id))
      && tbl' == tbl[id := Row(TextValue(f.name), TextValue(f.description), IntegerValue(SortOrderOf(f.sortOrder)))]
  {
    var values := AddValues(f);
    ContentUriText();
    assert Match(ContentUri) == Tasks;
    forall c | c in values ensures IsColumn(c) {
      SchemaColumns(c);
    }
    SchemaRequiresName(Apply(EmptyRow, values));
    if tbl.Keys != {} {
      assert NextRowIdOf(tbl) !in tbl;
    }
  }
}

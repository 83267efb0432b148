# TaskTimer core in Dafny

This project models the data layer and the small screen logic of the TaskTimer Android app:

- **The Tasks contract.** It gives the table and column names, the provider authority, the content URIs, and the two MIME types. It also has the helpers that put a task id into a URI and read it back (`TasksContract`).
- **The database helper.** This covers:
  - the schema that `onCreate` declares;
  - the version rule of `onUpgrade`;
  - the lazily created process-wide helper.

  It also gives the Tasks table the helper hands out (`AppDatabase`). SQLite is not modelled itself. The table is a map from `_id` to a row, and the handle's `insert`, `update`, `delete` and `query` are functions on that map. These functions follow SQLite's behaviour on this schema:
  - a missing column is NULL;
  - a NULL `name` breaks the NOT NULL constraint;
  - a new row gets the largest id plus one;
  - an empty WHERE clause selects every row;
  - `insert` reports failure as -1, while `update` throws.
- **The content provider.** It has a URI matcher with the two shapes `<authority>/Tasks` and `<authority>/Tasks/#`. Its `query`, `getType`, `insert`, `delete` and `update` dispatch on those shapes. On an item URI, `delete` and `update` build the criterion `_id = N [AND (selection)]` (`AppProvider`).
- **The task-list adapter.** It covers the item count (never zero), binding an item or the instructions row, and cursor swapping with its notifications (`CursorRecyclerViewAdapter`).
- **The add/edit screen.** It chooses edit or add mode from its arguments. A save click makes at most one provider call: an update of the changed fields, or an insert of a named task (`AddEditActivityFragment`).
- **The confirmation dialog.** It checks its arguments and gives captions their defaults. It forwards button clicks and cancellation to the attached listener (`AppDialog`).

Supporting modules:
- `Wrappers`: `Option`, `Result` and `Outcome`.
- `Decimal`: Java's `Long`/`Integer` decimal text, with `toString` and `parseLong`/`parseInt` over ASCII digits.
- `Platform`: Java exceptions as a datatype, the `Task` record, argument `Bundle`s and their getters, and the host activity.

Where the code does something the surrounding documentation does not say, the model follows the code:
- **Sort order on insert.** An insert without a sort order stores NULL, not 0, because the schema declares no default (`AppDatabase.InsertNameOnly`).
- **No change notification.** The provider never calls `notifyChange`, so no change notification is modelled.
- **Over-long ids.** An id segment of digits too large for a `long`, such as `Tasks/99999999999999999999`, still matches `#`. It is therefore not rejected as an unknown URI: reading the id throws `NumberFormatException`, a subclass of `IllegalArgumentException`, rather than the unknown-URI rejection (`AppProvider.OverlongIdIsNumberFormat`).
- **Negative row ids.** A row stored under an explicit negative `_id` really is inserted. `insert` still reports it as a failure, because it tests `recordId >= 0` (`AppProvider.NegativeRowIdStoredButReported`).

## Model

| member | source | states |
|---|---|---|
| Decimal.LongRoundTrip | app/src/main/java/me/modernpage/tasktimer/TasksContract.java:43-49 | `Long.parseLong` reads back every `long` that `Long.toString` printed |
| Decimal.IntRoundTrip | app/src/main/java/me/modernpage/tasktimer/AddEditActivityFragment.java:108-112 | `Integer.parseInt` reads back every `int` that `Integer.toString` printed |
| Decimal.SignedToStringDigits | app/src/main/java/me/modernpage/tasktimer/AppProvider.java:74 | an id's decimal text is all digits, so `#` matches it, exactly when the id is not negative |
| Platform.GetInt | app/src/main/java/me/modernpage/tasktimer/AppDialog.java:73 | `Bundle.getInt` gives the int stored under the key, and 0 when the key is absent or holds another kind of value |
| Platform.GetString | app/src/main/java/me/modernpage/tasktimer/AppDialog.java:74 | `Bundle.getString` is non-null exactly when a string is stored under the key, and is then that string |
| Platform.GetTask | app/src/main/java/me/modernpage/tasktimer/AddEditActivityFragment.java:86 | the cast `(Task) getSerializable` gives null when absent or null, and the stored task when one is stored. Any other stored value, and only such a value, makes it throw `ClassCastException` |
| TasksContract.WithAppendedPath | app/src/main/java/me/modernpage/tasktimer/TasksContract.java:34 | appending keeps the scheme, the authority and the existing path, and adds exactly one segment |
| TasksContract.ContentUriText | app/src/main/java/me/modernpage/tasktimer/TasksContract.java:34 | `CONTENT_URI` is `content://me.modernpage.tasktimer.AppProvider/Tasks` |
| TasksContract.MimeTypesShape | app/src/main/java/me/modernpage/tasktimer/TasksContract.java:36-37 | the directory type and the item type differ, and both end with the vendor subtype `vnd.<authority>.Tasks` |
| TasksContract.ColumnNamesDistinct | app/src/main/java/me/modernpage/tasktimer/TasksContract.java:20-24 | the four column names are pairwise distinct |
| TasksContract.BuildTaskUri | app/src/main/java/me/modernpage/tasktimer/TasksContract.java:43-45 | a task URI has the provider's authority and the path `Tasks/<id>`, the second segment being `Long.toString(id)` |
| TasksContract.GetTaskId | app/src/main/java/me/modernpage/tasktimer/TasksContract.java:47-49 | `parseId` gives -1 for a URI without segments. Otherwise it succeeds exactly when `Long.parseLong` accepts the last segment, and gives that value. Its only failure is `NumberFormatException` |
| TasksContract.TaskIdRoundTrip | app/src/main/java/me/modernpage/tasktimer/TasksContract.java:43-49 | `getTaskId(buildTaskUri(id)) == id` for every `long` id |
| TasksContract.BuildTaskUriInjective | app/src/main/java/me/modernpage/tasktimer/TasksContract.java:43-45 | different ids give different task URIs |
| AppDatabase.SchemaRequiresName | app/src/main/java/me/modernpage/tasktimer/AppDatabase.java:56-60 | the schema accepts a row exactly when its `name` is not NULL; `description` and `sortOrder` may be NULL |
| AppDatabase.SchemaColumns | app/src/main/java/me/modernpage/tasktimer/AppDatabase.java:56-60 | the table has exactly the columns `_id`, `name`, `description` and `sortOrder` |
| AppDatabase.OnUpgrade | app/src/main/java/me/modernpage/tasktimer/AppDatabase.java:71-77 | upgrading from version 1 succeeds and leaves the table as it was; every other old version throws `IllegalStateException` |
| AppDatabase.Matching | app/src/main/java/me/modernpage/tasktimer/AppProvider.java:245-248 | a row is selected exactly when it is in the table and the clause is null, empty or holds for it |
| AppDatabase.Select | app/src/main/java/me/modernpage/tasktimer/AppProvider.java:139-141 | a query returns exactly the selected rows, unchanged |
| AppDatabase.Apply | app/src/main/java/me/modernpage/tasktimer/AppProvider.java:296 | a written row takes each given column's value and keeps every other column |
| AppDatabase.DeleteWhere | app/src/main/java/me/modernpage/tasktimer/AppProvider.java:247 | delete removes exactly the selected rows, keeps the others unchanged, and returns how many it removed |
| AppDatabase.UpdateWhere | app/src/main/java/me/modernpage/tasktimer/AppProvider.java:296 | update refuses empty values (`IllegalArgumentException`), an unknown column (SQL error) and a NULL name in any selected row (NOT NULL constraint). It succeeds exactly when none of these holds. It then keeps the keys, writes the values into exactly the selected rows, returns their number, and keeps every row valid |
| AppDatabase.InsertOutcome | app/src/main/java/me/modernpage/tasktimer/AppProvider.java:209 | insert either returns -1 with the table unchanged, or adds exactly one row under a new id. An unknown column or a row without a name gives -1. Otherwise it stores the row under the automatic id, or under the explicit `_id` when that id is free; a taken or malformed `_id` gives -1. Valid tables stay valid |
| AppDatabase.NextRowId | app/src/main/java/me/modernpage/tasktimer/AppProvider.java:209 | the automatic row id is larger than every stored id and one more than the largest (1 in an empty table) |
| AppDatabase.InsertNameOnly | app/src/main/java/me/modernpage/tasktimer/AppDatabase.java:58-60 | a task inserted with only a name gets the next id, with NULL description and NULL sort order |
| Decimal.OverlongNumeralRejected | app/src/main/java/me/modernpage/tasktimer/TasksContract.java:47-49 | twenty or more digits without a leading zero denote a number beyond every `long`, so `Long.parseLong` rejects them |
| AppDatabase.InsertWithoutNameFails | app/src/main/java/me/modernpage/tasktimer/AppDatabase.java:58 | values without a name (or with a NULL name) are never stored: insert returns -1 |
| AppDatabase.AppDatabase.constructor | app/src/main/java/me/modernpage/tasktimer/AppDatabase.java:26-29 | the helper's table is the stored one, or the empty one `onCreate` makes |
| AppDatabase.AppDatabase.Insert | app/src/main/java/me/modernpage/tasktimer/AppProvider.java:208-209 | the writable handle's insert gives the row id and new table of `InsertOutcome`, with SQLite's next id |
| AppDatabase.AppDatabase.Update | app/src/main/java/me/modernpage/tasktimer/AppProvider.java:295-296 | the writable handle's update gives the result of `UpdateWhere`; when it throws, the table is unchanged |
| AppDatabase.AppDatabase.Delete | app/src/main/java/me/modernpage/tasktimer/AppProvider.java:246-247 | the writable handle's delete gives the count and table of `DeleteWhere` |
| AppDatabase.InstanceHolder.constructor | app/src/main/java/me/modernpage/tasktimer/AppDatabase.java:24 | the singleton starts out null |
| AppDatabase.InstanceHolder.GetInstance | app/src/main/java/me/modernpage/tasktimer/AppDatabase.java:36-48 | a helper is created only while the singleton is null; otherwise the existing one is returned. The result is the singleton afterwards |
| AppDatabase.GetInstanceTwice | app/src/main/java/me/modernpage/tasktimer/AppDatabase.java:36-48 | two calls, with any contexts, return one and the same helper |
| AppProvider.Match | app/src/main/java/me/modernpage/tasktimer/AppProvider.java:68-83 | the matcher gives `TASKS` exactly for `<authority>/Tasks` and `TASKS_ID` exactly for `<authority>/Tasks/<digits>`. Every other URI gets `NO_MATCH` |
| AppProvider.GetType | app/src/main/java/me/modernpage/tasktimer/AppProvider.java:165-191 | `getType` gives `CONTENT_TYPE` exactly for the collection URI and `CONTENT_ITEM_TYPE` exactly for an item URI. It throws `IllegalArgumentException` for every other URI |
| AppProvider.ItemCriterion | app/src/main/java/me/modernpage/tasktimer/AppProvider.java:252-256 | `_id = N [AND (sel)]` is never empty and selects exactly the rows with id N that the caller's selection also selects |
| AppProvider.QueryItemWhere | app/src/main/java/me/modernpage/tasktimer/AppProvider.java:110-114 | a query on an item URI selects exactly the rows with the URI's id that the caller's selection also selects |
| AppProvider.AppProvider.OnCreate | app/src/main/java/me/modernpage/tasktimer/AppProvider.java:86-90 | the provider takes the singleton helper (an existing one, if there is one) and reports success |
| AppProvider.AppProvider.Query | app/src/main/java/me/modernpage/tasktimer/AppProvider.java:98-142 | `query` dispatches on the URI shape to the selected rows of the table |
| AppProvider.AppProvider.Insert | app/src/main/java/me/modernpage/tasktimer/AppProvider.java:196-231 | `insert` changes the table and returns what the insert rule gives: the task URI for a non-negative row id, and `SQLException` otherwise |
| AppProvider.AppProvider.ItemSelection | app/src/main/java/me/modernpage/tasktimer/AppProvider.java:301-305 | the criterion built by string concatenation is the item criterion, or the id's parse failure |
| AppProvider.AppProvider.Delete | app/src/main/java/me/modernpage/tasktimer/AppProvider.java:234-280 | `delete` passes the selection through on the collection URI and uses the item criterion on an item URI |
| AppProvider.AppProvider.Update | app/src/main/java/me/modernpage/tasktimer/AppProvider.java:283-329 | `update` passes the selection through on the collection URI and uses the item criterion on an item URI; a failed update changes nothing |
| AppProvider.UnknownUriRejected | app/src/main/java/me/modernpage/tasktimer/AppProvider.java:68-83 | for a URI of neither shape, `query`, `getType`, `insert`, `delete` and `update` all throw `IllegalArgumentException` and change nothing |
| AppProvider.InsertOnItemUriRejected | app/src/main/java/me/modernpage/tasktimer/AppProvider.java:206-227 | `insert` on an item URI throws `IllegalArgumentException` and changes nothing |
| AppProvider.TaskUriIsItemUri | app/src/main/java/me/modernpage/tasktimer/AppProvider.java:74 | a task URI with a non-negative id is an item URI of the item MIME type; `CONTENT_URI` has the directory type |
| AppProvider.NegativeTaskUriUnknown | app/src/main/java/me/modernpage/tasktimer/AppProvider.java:74 | a task URI built from a negative id matches neither shape |
| AppProvider.ItemQueryReturnsOnlyItsRow | app/src/main/java/me/modernpage/tasktimer/AppProvider.java:110-114 | a query of a task's URI returns that task's row alone, exactly when the row exists and meets the caller's selection, and otherwise no rows |
| AppProvider.OverlongIdIsNumberFormat | app/src/main/java/me/modernpage/tasktimer/AppProvider.java:110-114 | for every item URI whose digits are too large for a `long`, `getTaskId` and with it `query`, `delete` and `update` throw `NumberFormatException` (a subclass of `IllegalArgumentException`) rather than the unknown-URI rejection, and change nothing |
| AppProvider.OverlongIdExample | app/src/main/java/me/modernpage/tasktimer/AppProvider.java:74 | `Tasks/99999999999999999999` matches `#` and its digits are too large for a `long` |
| AppProvider.InsertReturnsNewTaskUri | app/src/main/java/me/modernpage/tasktimer/AppProvider.java:209-214 | a successful insert returns `buildTaskUri(id)` for a new non-negative id, adds exactly that row, and a query of the returned URI finds exactly that row |
| AppProvider.InsertWithoutNameFailsSQL | app/src/main/java/me/modernpage/tasktimer/AppProvider.java:209-214 | inserting values without a name throws `SQLException` and stores nothing |
| AppProvider.NegativeRowIdStoredButReported | app/src/main/java/me/modernpage/tasktimer/AppProvider.java:209-214 | for every table and values that the schema accepts with a free negative explicit `_id`, insert stores the row under that id, yet throws `SQLException` |
| AppProvider.NegativeRowIdExample | app/src/main/java/me/modernpage/tasktimer/AppProvider.java:209-214 | inserting the name "x" with `_id` -5 into an empty table stores that row and throws `SQLException` |
| AppProvider.ItemDeleteTouchesOnlyItsRow | app/src/main/java/me/modernpage/tasktimer/AppProvider.java:250-258 | delete on a task URI removes that task exactly when it exists and meets the selection, reports 0 or 1 accordingly, and leaves every other row as it was |
| AppProvider.CollectionDeleteAll | app/src/main/java/me/modernpage/tasktimer/AppProvider.java:245-248 | delete on the collection URI with a null selection removes every row and reports their number |
| AppProvider.CollectionUpdateAll | app/src/main/java/me/modernpage/tasktimer/AppProvider.java:283-296 | update on the collection URI with a null selection succeeds exactly when the values are non-empty, name known columns and keep every row's name; it then writes them into every row and reports their number, and on failure changes nothing |
| AppProvider.DeleteThenQueryEmpty | app/src/main/java/me/modernpage/tasktimer/AppProvider.java:250-258 | after a task is deleted by its URI, querying that URI returns no rows |
| AppProvider.ItemUpdateTouchesOnlyItsRow | app/src/main/java/me/modernpage/tasktimer/AppProvider.java:299-307 | a successful update on a task URI writes only into that task's row, only when the row meets the selection, and reports 0 or 1 accordingly |
| AppProvider.RenameChangesOnlyName | app/src/main/java/me/modernpage/tasktimer/AppProvider.java:299-307 | renaming a stored task through its URI succeeds with count 1 and changes that task's name and nothing else |
| CursorRecyclerViewAdapter.CursorRecyclerViewAdapter.constructor | app/src/main/java/me/modernpage/tasktimer/CursorRecyclerViewAdapter.java:20-22 | the adapter starts with the given cursor, which may be null |
| CursorRecyclerViewAdapter.CursorRecyclerViewAdapter.GetItemCount | app/src/main/java/me/modernpage/tasktimer/CursorRecyclerViewAdapter.java:53-55 | the count is never below 1. It is 1 with no cursor or an empty one, and otherwise the cursor's row count |
| CursorRecyclerViewAdapter.CursorRecyclerViewAdapter.BindViewHolder | app/src/main/java/me/modernpage/tasktimer/CursorRecyclerViewAdapter.java:34-50 | with no tasks, the instructions are bound and both buttons are hidden. Otherwise the name and description at the position are bound with both buttons shown. An unreachable position throws `IllegalStateException` |
| CursorRecyclerViewAdapter.CursorRecyclerViewAdapter.SwapCursor | app/src/main/java/me/modernpage/tasktimer/CursorRecyclerViewAdapter.java:66-80 | swapping in the same cursor gives null and changes nothing. Otherwise the old cursor is returned and the new one installed, with "data set changed" for a cursor or "range 0..1 removed" for null |
| CursorRecyclerViewAdapter.AdvertisedPositionsBind | app/src/main/java/me/modernpage/tasktimer/CursorRecyclerViewAdapter.java:34-55 | every position below the item count binds. While tasks are shown, a position binds exactly when it is below the count |
| CursorRecyclerViewAdapter.SwapTwice | app/src/main/java/me/modernpage/tasktimer/CursorRecyclerViewAdapter.java:66-69 | swapping the same cursor in twice leaves it installed, with the item count it implies |
| AddEditActivityFragment.SortOrderOf | app/src/main/java/me/modernpage/tasktimer/AddEditActivityFragment.java:108-112 | an empty sort-order field means 0; otherwise it is the number `Integer.parseInt` reads |
| AddEditActivityFragment.SaveRequestFor | app/src/main/java/me/modernpage/tasktimer/AddEditActivityFragment.java:117-143 | In edit mode: an update of `CONTENT_URI` with `_id = ?` bound to the task's id, issued exactly when a field changed and holding exactly the changed fields. In add mode: an insert of all three fields, issued exactly when the name is non-empty. Otherwise no call |
| AddEditActivityFragment.AddEditActivityFragment.constructor | app/src/main/java/me/modernpage/tasktimer/AddEditActivityFragment.java:45-47 | a new fragment has no mode, no task and no listener |
| AddEditActivityFragment.AddEditActivityFragment.CanClose | app/src/main/java/me/modernpage/tasktimer/AddEditActivityFragment.java:49-51 | the form never reports that it can close |
| AddEditActivityFragment.AddEditActivityFragment.OnAttach | app/src/main/java/me/modernpage/tasktimer/AddEditActivityFragment.java:57-68 | a host that implements `OnSaveClicked` becomes the listener; any other host is refused with `ClassCastException` and the listener is kept |
| AddEditActivityFragment.AddEditActivityFragment.OnDetach | app/src/main/java/me/modernpage/tasktimer/AddEditActivityFragment.java:160-164 | detaching clears the listener and nothing else |
| AddEditActivityFragment.AddEditActivityFragment.OnCreateView | app/src/main/java/me/modernpage/tasktimer/AddEditActivityFragment.java:80-101 | It throws `ClassCastException`, leaving the mode as it was, exactly when the arguments hold a non-task under the key. Otherwise the mode is edit exactly when the arguments hold a task, whose fields then fill the form, and add otherwise |
| AddEditActivityFragment.AddEditActivityFragment.OnSaveClick | app/src/main/java/me/modernpage/tasktimer/AddEditActivityFragment.java:105-147 | the click builds its values step by step and makes the save rule's call on the provider: an update with the task's id as the selection, or an insert. The table and the outcome are those of the provider's update or insert. The attached listener is notified only when that call did not throw |
| AddEditActivityFragment.UnchangedFormWritesNothing | app/src/main/java/me/modernpage/tasktimer/AddEditActivityFragment.java:117-133 | saving an edit form left exactly as it was prefilled makes no provider call |
| AddEditActivityFragment.IdSelectionBound | app/src/main/java/me/modernpage/tasktimer/AddEditActivityFragment.java:130-131 | `_id = ?` bound to the task's id selects exactly the row with that id |
| AddEditActivityFragment.EditSaveTouchesOnlyTheTask | app/src/main/java/me/modernpage/tasktimer/AddEditActivityFragment.java:128-132 | the update an edit issues succeeds on a valid table. It changes only the edited task's row, writing the changed fields into it, and reports 1 if the task exists |
| AddEditActivityFragment.AddSaveInsertsTheForm | app/src/main/java/me/modernpage/tasktimer/AddEditActivityFragment.java:135-141 | the insert an add issues stores one new row with the form's name, description and numeric sort order, and returns its task URI |
| AppDialog.CreateDialog | app/src/main/java/me/modernpage/tasktimer/AppDialog.java:64-91 | The dialog is built exactly when there are arguments with a non-zero id and a message; otherwise `IllegalArgumentException`. A caption id of 0 becomes `R.string.ok` or `R.string.cancel`, and a non-zero one is kept |
| AppDialog.AppDialog.OnAttach | app/src/main/java/me/modernpage/tasktimer/AppDialog.java:36-46 | a context that implements `DialogEvents` becomes the listener; any other context is refused with `ClassCastException` |
| AppDialog.AppDialog.OnDetach | app/src/main/java/me/modernpage/tasktimer/AppDialog.java:49-55 | detaching resets the listener to null |
| AppDialog.AppDialog.OnCreateDialog | app/src/main/java/me/modernpage/tasktimer/AppDialog.java:59-121 | `onCreateDialog`, reassigning the caption ids to their defaults, builds exactly the dialog of the creation rule |
| AppDialog.AppDialog.OnPositiveClick | app/src/main/java/me/modernpage/tasktimer/AppDialog.java:106-109 | the positive button forwards the captured id and arguments to `onPositiveDialogResult` of the listener; with no listener it throws `NullPointerException` |
| AppDialog.AppDialog.OnNegativeClick | app/src/main/java/me/modernpage/tasktimer/AppDialog.java:112-116 | the negative button forwards the same pair to `onNegativeDialogResult`; with no listener it throws `NullPointerException` |
| AppDialog.AppDialog.OnCancel | app/src/main/java/me/modernpage/tasktimer/AppDialog.java:131-137 | cancelling reports the argument id to `onDialogCancelled` only while a listener is attached |
| AppDialog.CaptionsNeverZero | app/src/main/java/me/modernpage/tasktimer/AppDialog.java:80-88 | with non-zero default resources, a created dialog never has a caption id of 0 |
| AppDialog.ClickAndCancel | app/src/main/java/me/modernpage/tasktimer/AppDialog.java:106-136 | for a created dialog, the positive button and cancellation report the same dialog id, the one in the arguments |

## Left out

- The SQLite engine is not modelled, including type affinity, SQL parsing and storage. The caller's selection text and arguments become an opaque row test (`AppDatabase.Where`), and the test stands for what SQLite makes of them. Only the text's emptiness is looked at, as `AppProvider.delete` and `AppProvider.update` do.
- Projection and sort order of `query` are left out: the model returns the selected rows as a map, without column choice or order. How `SQLiteQueryBuilder.appendWhere` joins its clause to the caller's selection is taken to be a conjunction.
- AppDatabase.UpdateWhere: requires that the values do not set `_id`, so changing a row's key by update is not modelled. AppDatabase.AppDatabase.Update, AppProvider.AppProvider.Update and AppProvider.UpdateSpec carry the same requirement.
- AppDatabase.InsertOutcome: when the next automatic id would exceed the largest `long`, SQLite tries random unused ids; the model reports failure (-1) instead.
- AddEditActivityFragment.AddEditActivityFragment.OnSaveClick: requires a sort-order text that `Integer.parseInt` accepts (or an empty one), so the `NumberFormatException` a non-numeric entry throws is not modelled.
- AddEditActivityFragment.Prefilled: a task's description is modelled as a string, never null, so `setText(null)` on a missing description is not modelled. Task.java is not part of this model.
- Decimal.ParseSigned: digits are ASCII only. `Long.parseLong` and `Integer.parseInt` also accept other Unicode decimal digits, which the model refuses.
- AppDatabase.AppDatabase.constructor: the model opens the table when the helper is constructed. The source defers opening to the first `getReadableDatabase`/`getWritableDatabase`, when `onCreate` or `onUpgrade` runs. The open-time call of `onUpgrade` on an older database file is not modelled; `AppDatabase.OnUpgrade` states its rule on its own.
- `AppDatabase.close` is not modelled: it calls `close()` on the singleton itself.
- The double-checked locking in `getInstance` is not modelled, since concurrency is out of scope; only the sequential create-once behaviour is.
- The commented-out Timings and Durations URIs and their codes are unimplemented in the source and are not modelled.
- Logging, view inflation and `findViewById` are not modelled. `R.string` resource ids are a parameter (`AppDialog.StringResources`), and `R.string.instructions*` are symbolic labels.
- `TaskViewHolder` and `onCreateViewHolder` are not modelled.
- The content resolver's routing of a call to this provider is not modelled: the save click calls the provider object directly. The update's `_id = ?` with its argument is passed as the selection it stands for (`AddEditActivityFragment.IdSelectionBound`).
- MainActivity, MainActivityFragment and AddEditActivity are not part of this model, apart from the callback interfaces they implement (`Platform.Host`).

/**
 * The few Android and Java library types the application's core touches:
 * the exceptions it throws or lets escape, the `Task` record passed between
 * screens, argument bundles, and the host activity a fragment attaches to.
 */
module Platform {
  import opened Wrappers
  import opened Decimal

  /**
   * The Java exceptions the core throws or lets escape. Each constructor names an
   * exact class, not the class and its subclasses: `NumberFormat` is a subclass of
   * `IllegalArgument`, and `SQLiteFailure` and `SQLiteConstraint` are subclasses of
   * `SQLFailure`, so a Java handler for the superclass also catches them.
   */
  datatype Exception =
    | IllegalArgument   // java.lang.IllegalArgumentException
    | IllegalState      // java.lang.IllegalStateException
    | NumberFormat      // java.lang.NumberFormatException
    | ClassCast         // java.lang.ClassCastException
    | NullPointer       // java.lang.NullPointerException
    | SQLFailure        // android.database.SQLException
    | SQLiteFailure     // android.database.sqlite.SQLiteException (e.g. no such column)
    | SQLiteConstraint  // android.database.sqlite.SQLiteConstraintException

  /** A task as the edit screen receives it, through the getters it calls. */
  datatype Task = Task(id: Long, name: string, description: string, sortOrder: Int32)

  /** A value stored in a `Bundle`: the kinds the application puts there. */
  datatype BundleValue =
    | IntValue(i: Int32)
    | LongValue(l: Long)
    | StringValue(s: string)
    | TaskValue(t: Task)
    | NullValue

  type Bundle = map<string, BundleValue>

  /** `Bundle.getInt(key)`: 0 when the key is absent or holds another kind of value. */
  function GetInt(b: Bundle, key: string): (r: Int32)
    ensures key in b && b[key].IntValue? ==> r == b[key].i
    ensures !(key in b && b[key].IntValue?) ==> r == 0
  {
    if key in b && b[key].IntValue? then b[key].i else 0
  }

  /** `Bundle.getString(key)`: null (`None`) when absent or of another kind. */
  function GetString(b: Bundle, key: string): (r: Option<string>)
    ensures r.Some? <==> key in b && b[key].StringValue?
    ensures r.Some? ==> r.value == b[key].s
  {
    if key in b && b[key].StringValue? then Some(b[key].s) else None
  }

  /**
   * `(Task) b.getSerializable(key)`: null when absent or null; the task when one is
   * stored; any other stored value is Serializable too, so the cast to `Task` throws.
   */
  function GetTask(b: Bundle, key: string): (r: Result<Option<Task>, Exception>)
    ensures r == Ok(None) <==> key !in b || b[key] == NullValue
    ensures key in b && b[key].TaskValue? ==> r == Ok(Some(b[key].t))
    ensures r.Err? <==> key in b && !b[key].TaskValue? && b[key] != NullValue
    ensures r.Err? ==> r.error == ClassCast
  {
    if key !in b then Ok(None)
    else match b[key]
      case NullValue => Ok(None)
      case TaskValue(t) => Ok(Some(t))
      case _ => Err(ClassCast)
  }

  /**
   * The activity (or other context) a fragment is attached to, identified by name,
   * with the callback interfaces it implements.
   */
  datatype Host = Host(name: string, implementsOnSaveClicked: bool, implementsDialogEvents: bool)
}

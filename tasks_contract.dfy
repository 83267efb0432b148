/**
 * The Tasks contract: table and column names, the provider's authority, the
 * content URIs of the Tasks collection and of one task, their MIME types, and
 * the two helpers that put a task id into a URI and read it back.
 *
 * A URI is modelled by the parts RFC 3986 section 3 names: a scheme, an
 * authority and the (decoded) path segments; query and fragment are never used.
 */
module TasksContract {
  import opened Wrappers
  import opened Decimal
  import opened Platform

  const TableName: string := "Tasks"

  /** Column names; `_id` is `BaseColumns._ID`. */
  const IdColumn: string := "_id"
  const NameColumn: string := "name"
  const DescriptionColumn: string := "description"
  const SortOrderColumn: string := "sortOrder"

  const ContentAuthority: string := "me.modernpage.tasktimer.AppProvider"

  datatype Uri = Uri(scheme: string, authority: string, path: seq<string>)

  /** `Uri.parse("content://" + CONTENT_AUTHORITY)`. */
  const ContentAuthorityUri: Uri := Uri("content", ContentAuthority, [])

  /** `Uri.withAppendedPath` and `ContentUris.withAppendedId`: one more path segment. */
  function WithAppendedPath(u: Uri, segment: string): (r: Uri)
    ensures r.scheme == u.scheme && r.authority == u.authority
    ensures |r.path| == |u.path| + 1 && r.path[..|u.path|] == u.path && r.path[|u.path|] == segment
  {
    u.(path := u.path + [segment])
  }

  /** The URI of the whole Tasks table. */
  const ContentUri: Uri := WithAppendedPath(ContentAuthorityUri, TableName)

  /** The vendor-tree (`vnd.`, RFC 6838 section 3.2) subtype shared by both MIME types. */
  const VendorSubtype: string := "vnd." + ContentAuthority + "." + TableName
  const ContentType: string := "vnd.android.cursor.dir/" + VendorSubtype
  const ContentItemType: string := "vnd.android.cursor.item/" + VendorSubtype

  /** `buildTaskUri(taskId)`: the Tasks URI with the id's decimal text appended. */
  function BuildTaskUri(taskId: Long): (u: Uri)
    ensures u.scheme == ContentUri.scheme && u.authority == ContentAuthority
    ensures |u.path| == 2 && u.path[0] == TableName && u.path[1] == SignedToString(taskId)
  {
    WithAppendedPath(ContentUri, SignedToString(taskId))
  }

  /**
   * `getTaskId(uri)`, i.e. `ContentUris.parseId`: -1 for a URI without path segments,
   * otherwise the last segment parsed by `Long.parseLong`, which throws
   * `NumberFormatException` on anything but a `long` numeral.
   */
  function GetTaskId(u: Uri): (r: Result<Long, Exception>)
    ensures r.Err? ==> r.error == NumberFormat
    ensures u.path == [] ==> r == Ok(-1)
    ensures u.path != [] ==> (r.Ok? <==> ParseLong(u.path[|u.path| - 1]).Some?)
    ensures u.path != [] && r.Ok? ==> ParseLong(u.path[|u.path| - 1]) == Some(r.value)
  {
    if u.path == [] then Ok(-1)
    else match ParseLong(u.path[|u.path| - 1])
      case Some(id) => Ok(id)
      case None => Err(NumberFormat)
  }

  /** The text form `scheme://authority/segment/...` of a URI. */
  function UriText(u: Uri): string {
    u.scheme + "://" + u.authority + PathText(u.path)
  }

  function PathText(path: seq<string>): string {
    if path == [] then "" else PathText(path[..|path| - 1]) + "/" + path[|path| - 1]
  }

  /** Every task id survives the trip into a URI and back. */
  lemma TaskIdRoundTrip(id: Long)
    ensures GetTaskId(BuildTaskUri(id)) == Ok(id)
  {
    LongRoundTrip(id);
  }

  /** Two different ids give two different task URIs. */
  lemma BuildTaskUriInjective(a: Long, b: Long)
    requires BuildTaskUri(a) == BuildTaskUri(b)
    ensures a == b
  {
    TaskIdRoundTrip(a);
    TaskIdRoundTrip(b);
  }

  /** The Tasks URI in text form is `content://<authority>/Tasks`. */
  lemma ContentUriText()
    ensures ContentUri == Uri("content", "me.modernpage.tasktimer.AppProvider", ["Tasks"])
    ensures UriText(ContentUri) == "content://" + ContentAuthority + "/" + TableName
  {
    assert ContentUri.path[..0] == [];
    assert PathText(ContentUri.path) == "/" + TableName;
  }

  /** The two MIME types differ, and only in the `dir`/`item` part before the shared vendor subtype. */
  lemma MimeTypesShape()
    ensures ContentType != ContentItemType
    ensures ContentType[|ContentType| - |VendorSubtype|..] == VendorSubtype
    ensures ContentItemType[|ContentItemType| - |VendorSubtype|..] == VendorSubtype
  {
    assert ContentType[20] != ContentItemType[20];
  }

  lemma ColumnNamesDistinct()
    ensures IdColumn != NameColumn && IdColumn != DescriptionColumn && IdColumn != SortOrderColumn
    ensures NameColumn != DescriptionColumn && NameColumn != SortOrderColumn
    ensures DescriptionColumn != SortOrderColumn
  {
  }
}

/**
 * The task list's adapter: it holds one cursor (possibly none), shows an
 * "instructions" row when there are no tasks, and swaps cursors as new query
 * results arrive.
 */
module CursorRecyclerViewAdapter {
  import opened Wrappers
  import opened Platform
  import opened AppDatabase

  /** A query result as the adapter reads it; two cursors are the same only if they are one object. */
  class Cursor {
    const rows: seq<Row>

    constructor (rows: seq<Row>)
      ensures this.rows == rows
    {
      this.rows := rows;
    }
  }

  /** What a text view of a list item is set to: one of the two instruction strings, or a cell. */
  datatype Label = InstructionsHeading | Instructions | CellText(v: Value)

  datatype Visibility = Visible | Gone

  /** A bound list item: its name and description texts, and its delete and edit buttons. */
  datatype ItemView = ItemView(name: Label, description: Label, deleteButton: Visibility, editButton: Visibility)

  /** The change the adapter reports to the list after a swap. */
  datatype Notification = DataSetChanged | ItemRangeRemoved(start: int, count: int)

  class CursorRecyclerViewAdapter {
    var cursor: Cursor?

    constructor (cursor: Cursor?)
      ensures this.cursor == cursor
    {
      this.cursor := cursor;
    }

    /** No cursor or an empty one: the list shows the instructions row instead of tasks. */
    predicate ShowsInstructions()
      reads this
    {
      cursor == null || |cursor.rows| == 0
    }

    /** `getItemCount`: never zero, so the instructions row always has a place. */
    function GetItemCount(): (n: int)
      reads this
      ensures n >= 1
      ensures ShowsInstructions() ==> n == 1
      ensures !ShowsInstructions() ==> n == |cursor.rows|
    {
      if cursor == null || |cursor.rows| == 0 then 1 else |cursor.rows|
    }

    /**
     * `onBindViewHolder(holder, position)`: the instructions with both buttons hidden,
     * or the name and description of the row at `position` with both buttons shown;
     * a position the cursor cannot move to throws `IllegalStateException`.
     */
    function BindViewHolder(position: int): (r: Result<ItemView, Exception>)
      reads this
      ensures ShowsInstructions() ==> r == Ok(ItemView(InstructionsHeading, Instructions, Gone, Gone))
      ensures !ShowsInstructions() ==>
        (r.Ok? <==> 0 <= position < |cursor.rows|) &&
        (r.Ok? ==> r.value == ItemView(CellText(cursor.rows[position].name),
                                       CellText(cursor.rows[position].description), Visible, Visible)) &&
        (r.Err? ==> r.error == IllegalState)
    {
      if cursor == null || |cursor.rows| == 0 then
        Ok(ItemView(InstructionsHeading, Instructions, Gone, Gone))
      else if !(0 <= position < |cursor.rows|) then
        Err(IllegalState)
      else
        var row := cursor.rows[position];
        Ok(ItemView(CellText(row.name), CellText(row.description), Visible, Visible))
    }

    /**
     * `swapCursor(newCursor)`: the same object again changes nothing and yields null;
     * otherwise the old cursor is handed back (not closed), the new one installed,
     * and the list told either that the data changed or that the range from 0 of the
     * new item count (which is then 1) was removed.
     */
    method SwapCursor(newCursor: Cursor?) returns (oldCursor: Cursor?, notice: Option<Notification>)
      modifies this
      ensures newCursor == old(cursor) ==> oldCursor == null && cursor == old(cursor) && notice == None
      ensures newCursor != old(cursor) ==> oldCursor == old(cursor) && cursor == newCursor
      ensures newCursor != old(cursor) && newCursor != null ==> notice == Some(DataSetChanged)
      ensures newCursor != old(cursor) && newCursor == null ==> notice == Some(ItemRangeRemoved(0, 1))
    {
      if newCursor == cursor {
        return null, None;
      }
      oldCursor := cursor;
      cursor := newCursor;
      if newCursor != null {
        notice := Some(DataSetChanged);
      } else {
        notice := Some(ItemRangeRemoved(0, GetItemCount()));
      }
    }
  }

  /**
   * The positions the adapter advertises are exactly those it can bind when it shows
   * tasks, and every advertised position binds when it shows the instructions.
   */
  lemma AdvertisedPositionsBind(a: CursorRecyclerViewAdapter, position: int)
    ensures 0 <= position < a.GetItemCount() ==> a.BindViewHolder(position).Ok?
    ensures !a.ShowsInstructions() ==> (a.BindViewHolder(position).Ok? <==> 0 <= position < a.GetItemCount())
  {
  }

  /** A client: swapping the same cursor twice leaves the first swap's result in place. */
  method SwapTwice(a: CursorRecyclerViewAdapter, c: Cursor)
    modifies a
    ensures a.cursor == c && a.GetItemCount() == (if |c.rows| == 0 then 1 else |c.rows|)
  {
    var _, _ := a.SwapCursor(c);
    var second, notice := a.SwapCursor(c);
    assert second == null && notice == None;
  }
}

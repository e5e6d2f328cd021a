/**
 * The list adapter of MusicAdapter.java: the shared track list, the single
 * selected row (`-1` for none) and the change notifications it sends to the
 * list view. Each notification is appended to `notifications`, so the order in
 * which rows are asked to redraw is part of the state.
 */
module Adapter {
  import opened MusicItems

  /** `notifyItemChanged(position)` and `notifyDataSetChanged()`. */
  datatype Notification = ItemChanged(position: int) | DataSetChanged

  /** Selection value meaning "no row selected". */
  const NoSelection := -1

  /** What a row click sends, in order: the previous row, then the clicked one. */
  function ClickNotifications(previous: int, clicked: int): seq<Notification> {
    [ItemChanged(previous), ItemChanged(clicked)]
  }

  /**
   * Every row whose highlight differs between the selection before and after a
   * click is among the rows the click asks to redraw.
   */
  lemma {:induction false} ClickRedrawsEveryChangedRow(previous: int, clicked: int, row: int)
    requires (row == previous) != (row == clicked)
    ensures ItemChanged(row) in ClickNotifications(previous, clicked)
  {
  }

  class MusicAdapter {
    const musicList: seq<MusicItem>
    var selectedPosition: int
    var notifications: seq<Notification>

    constructor (musicList: seq<MusicItem>)
      ensures this.musicList == musicList
      ensures selectedPosition == NoSelection && notifications == []
    {
      this.musicList := musicList;
      selectedPosition := NoSelection;
      notifications := [];
    }

    /** `getItemCount`: one row per track of the shared list. */
    function ItemCount(): nat {
      |musicList|
    }

    /** The highlight test of `onBindViewHolder`. */
    predicate IsHighlighted(position: int)
      reads this
    {
      position == selectedPosition
    }

    /**
     * The rows drawn highlighted: at most one, the selected row when it is a
     * row of the list, and none while the selection is -1.
     */
    function HighlightedRows(): (rows: set<int>)
      reads this
      ensures forall p :: p in rows <==> 0 <= p < ItemCount() && IsHighlighted(p)
      ensures |rows| <= 1
      ensures selectedPosition == NoSelection ==> rows == {}
    {
      if 0 <= selectedPosition < |musicList| then {selectedPosition} else {}
    }

    /**
     * The click handler of a row: select it, redraw the previously selected
     * row and then the clicked one (also when nothing was selected before),
     * and give back the row's item for the click listener, which runs only
     * after these updates.
     */
    method OnRowClick(position: int) returns (item: MusicItem)
      requires 0 <= position < ItemCount()
      modifies this
      ensures selectedPosition == position
      ensures notifications == old(notifications) + ClickNotifications(old(selectedPosition), position)
      ensures forall p :: old(IsHighlighted(p)) != IsHighlighted(p) ==>
        ItemChanged(p) in notifications[|old(notifications)|..]
      ensures item == musicList[position]
    {
      var previous := selectedPosition;
      selectedPosition := position;
      notifications := notifications + [ItemChanged(previous)];
      notifications := notifications + [ItemChanged(selectedPosition)];
      item := musicList[position];
    }

    /** Store the position as given, without a bounds check, and redraw the whole list. */
    method SetSelectedPosition(position: int)
      modifies this
      ensures selectedPosition == position
      ensures notifications == old(notifications) + [DataSetChanged]
    {
      selectedPosition := position;
      notifications := notifications + [DataSetChanged];
    }
  }
}

/** generateBoard as written: it passes resourceToClass's result straight to classList.add, and
    a DOM token list refuses the empty token with a SyntaxError. A resource id outside 0..5 maps
    to the empty class name, so the first such hex aborts the rendering. The rows finished before
    it are already on the page (each row is appended once its loop ends). Only the board's
    outcome is modelled here, not the rest of updateStates, which the exception also skips. */
module Findings {
  import opened Board

  /** The outcome of the as-written generateBoard: the whole board, or the rows appended
      before the exception. */
  datatype Rendering = Rendered(board: seq<Row>) | Threw(partial: seq<Row>)

  /** A row holds a hex whose resource id has no class name. */
  predicate Unclassed(row: Row)
  {
    exists c :: 0 <= c < |row.cells| && row.cells[c].terrain == NoClass
  }

  /** The index of the first row holding an unclassed hex, or |rows| when there is none. */
  function FirstUnclassedRow(rows: seq<Row>): (r: nat)
    ensures r <= |rows|
    ensures forall i :: 0 <= i < r ==> !Unclassed(rows[i])
    ensures r < |rows| ==> Unclassed(rows[r])
  {
    if rows == [] then 0
    else if Unclassed(rows[0]) then 0
    else 1 + FirstUnclassedRow(rows[1..])
  }

  /** generateBoard as written: the layout up to the first row with an unknown resource id, and
      an exception there. */
  function RenderAsWritten(data: BoardState, selected: int): Rendering
  {
    var board := Layout(data, selected);
    var r := FirstUnclassedRow(board);
    if r == |board| then Rendered(board) else Threw(board[..r])
  }

  /** The row holding flat index i, when i is below the board's capacity. */
  function RowOf(sizes: seq<nat>, i: nat, r: nat): (row: nat)
    requires r <= |sizes| && Start(sizes, r) <= i < Start(sizes, |sizes|)
    ensures r <= row < |sizes| && Start(sizes, row) <= i < Start(sizes, row + 1)
    decreases |sizes| - r
  {
    if r == |sizes| then assert false; r
    else if i < Start(sizes, r + 1) then r
    else RowOf(sizes, i, r + 1)
  }

  /** A classic board whose only resource id, 9, is unknown: the corrected layout shows one
      unclassed hex with token 4, while the code as written throws before appending any row. */
  lemma UnknownResourceAborts()
    ensures var data := BoardState([9], [4], false, false, 0, false, true, true, true, true);
      Layout(data, 0)[0].cells == [Cell(NoClass, Number(4), Paint(false))] &&
      RenderAsWritten(data, 0) == Threw([])
  {
    var data := BoardState([9], [4], false, false, 0, false, true, true, true, true);
    var board := Layout(data, 0);
    var hex := Cell(NoClass, Number(4), Paint(false));
    assert Filled(1, RowSizes(false), 0) == 1;
    assert HexCell(data, 0, 0) == hex;
    HexRunOf(data, 0, 0, [hex]);
    assert board[0].cells[0] == hex;
    assert Unclassed(board[0]);
  }

  /** Every resource id laid out is one of 0..5. */
  predicate KnownIds(data: BoardState)
  {
    forall i :: 0 <= i < Min(|data.resources|, Capacity(data.extension)) ==> 0 <= data.resources[i] < 6
  }

  /** With known ids only, no row of the layout holds an unclassed hex. */
  lemma KnownIdsClassed(data: BoardState, selected: int, r: nat)
    requires KnownIds(data)
    requires r < |RowSizes(data.extension)|
    ensures !Unclassed(LayoutRow(data, selected, r))
  {
    var sizes := RowSizes(data.extension);
    var cells := LayoutRow(data, selected, r).cells;
    LayoutRowShape(data, selected, r);
    StartMonotone(sizes, r + 1, |sizes|);
    forall c | 0 <= c < |cells|
      ensures cells[c].terrain != NoClass
    {
      ResourceClassTable(data.resources[Start(sizes, r) + c]);
    }
  }

  /** An unknown id at a laid-out index i makes the row holding i unclassed. */
  lemma UnknownIdUnclassed(data: BoardState, selected: int, i: nat)
    requires i < Min(|data.resources|, Capacity(data.extension))
    requires !(0 <= data.resources[i] < 6)
    ensures var r := RowOf(RowSizes(data.extension), i, 0);
      Unclassed(LayoutRow(data, selected, r))
  {
    var sizes := RowSizes(data.extension);
    var r := RowOf(sizes, i, 0);
    var cells := LayoutRow(data, selected, r).cells;
    LayoutRowShape(data, selected, r);
    assert |cells| == Filled(|data.resources|, sizes, r);
    var c := i - Start(sizes, r);
    ResourceClassTable(data.resources[i]);
    assert cells[c].terrain == NoClass;
  }

  /** The code as written renders the whole board exactly when every resource id that is laid
      out is one of 0..5; otherwise it throws. */
  lemma RenderAsWrittenSucceeds(data: BoardState, selected: int)
    ensures RenderAsWritten(data, selected).Rendered? <==> KnownIds(data)
  {
    var board := Layout(data, selected);
    if KnownIds(data) {
      forall r | 0 <= r < |board|
        ensures !Unclassed(board[r])
      {
        KnownIdsClassed(data, selected, r);
      }
    } else {
      var i :| 0 <= i < Min(|data.resources|, Capacity(data.extension)) && !(0 <= data.resources[i] < 6);
      UnknownIdUnclassed(data, selected, i);
      assert Unclassed(board[RowOf(RowSizes(data.extension), i, 0)]);
    }
  }
}

/** The board view: how a board reply is laid out into rows of hexes, and the
    rule by which hexes are recoloured when a number is selected. The DOM is
    replaced by a view model: a sequence of rows, each with an optional offset
    class and a sequence of cells. */
module Board {
  import opened Decimal

  datatype Option<T> = None | Some(value: T)

  /** One JSON reply of /getboard, /setclassic, /setextension, /startgame or /endgame. */
  datatype BoardState = BoardState(
    resources: seq<int>,
    numbers: seq<int>,
    extension: bool,
    gameStarted: bool,
    selectedNumber: int,
    manualDice: bool,
    eightSixCanTouch: bool,
    twoTwelveCanTouch: bool,
    sameNumbersCanTouch: bool,
    sameResourceCanTouch: bool)

  /** Whether an element carries the `red` class and whether it carries the `black` class. */
  datatype Colour = Colour(red: bool, black: bool)

  /** What a hex shows: the desert placeholder, nothing (an undefined token), or a token. */
  datatype Label = Dashes | Blank | Number(value: int)

  /** The resource class a hex carries besides `hex`; NoClass is the empty class name. */
  datatype Terrain = Sheep | Wood | Wheat | Brick | Ore | Desert | NoClass

  /** One hex: its resource class, its caption and its colour classes. */
  datatype Cell = Cell(terrain: Terrain, caption: Label, colour: Colour)

  /** The extra class of a row div, if any. */
  datatype Offset = NoOffset | OffsetLeft | OffsetRight

  datatype Row = Row(offset: Offset, cells: seq<Cell>)

  /** The resource class names, indexed by resource id. */
  const ResourceClasses: seq<string> := ["sheep", "wood", "wheat", "brick", "ore", "desert"]

  const DesertId: int := 5

  /** The selected number that lights up the whole board (the robber roll). */
  const Robber: int := 7

  /** The classes left after adding one of `red`/`black` and removing the other. */
  function Paint(red: bool): (c: Colour)
    ensures c.red == red && c.black == !red
  {
    Colour(red, !red)
  }

  function Min(a: int, b: int): int
  {
    if a <= b then a else b
  }

  /** The CSS class name of a terrain. */
  function ClassName(terrain: Terrain): string
  {
    match terrain
    case Sheep => "sheep"
    case Wood => "wood"
    case Wheat => "wheat"
    case Brick => "brick"
    case Ore => "ore"
    case Desert => "desert"
    case NoClass => ""
  }

  /** resourceToClass: the resource class of a resource id. */
  function ResourceClass(id: int): Terrain
  {
    match id
    case 0 => Sheep
    case 1 => Wood
    case 2 => Wheat
    case 3 => Brick
    case 4 => Ore
    case 5 => Desert
    case _ => NoClass
  }

  /** Ids 0 to 5 name sheep, wood, wheat, brick, ore and desert, each its own class; every other id
      gets the empty class name. */
  lemma ResourceClassTable(id: int)
    ensures 0 <= id < |ResourceClasses| ==> ClassName(ResourceClass(id)) == ResourceClasses[id]
    ensures ClassName(ResourceClass(id)) == "" <==> !(0 <= id < |ResourceClasses|)
    ensures ResourceClass(id) == Desert <==> id == DesertId
  {
  }

  /** How many hexes a board of the given mode holds. */
  function Capacity(extension: bool): nat
  {
    if extension then 30 else 19
  }

  /** The index of the first hex of `row`: the sum of the sizes of the rows before it. */
  function Start(sizes: seq<nat>, row: nat): nat
    requires row <= |sizes|
  {
    if row == 0 then 0 else Start(sizes, row - 1) + sizes[row - 1]
  }

  /** The row sizes of the board mode: six rows for the extension board, five for the classic one,
      none empty, together exactly the mode's capacity. */
  function RowSizes(extension: bool): (sizes: seq<nat>)
    ensures |sizes| == if extension then 6 else 5
    ensures Start(sizes, |sizes|) == Capacity(extension)
    ensures forall r :: 0 <= r < |sizes| ==> 0 < sizes[r]
  {
    if extension then [4, 5, 6, 6, 5, 4] else [3, 4, 5, 4, 3]
  }

  /** The offset class of a row: left for the first three extension rows, right for the others,
      none on the classic board. */
  function RowOffset(extension: bool, row: nat): Offset
  {
    if extension && row < 3 then OffsetLeft
    else if extension && row >= 3 then OffsetRight
    else NoOffset
  }

  /** How many of the n hexes land in `row`: its full size, or what is left, or nothing. */
  function Filled(n: nat, sizes: seq<nat>, row: nat): (f: nat)
    requires row < |sizes|
    ensures f <= sizes[row]
    ensures f == 0 || Start(sizes, row) + f <= n
  {
    if n <= Start(sizes, row) then 0 else Min(sizes[row], n - Start(sizes, row))
  }

  /** The token of hex i, or None where the numbers array is too short (undefined in the page). */
  function TokenAt(numbers: seq<int>, i: nat): Option<int>
  {
    if i < |numbers| then Some(numbers[i]) else None
  }

  /** The label of a non-desert hex: its token, or nothing when the token is undefined. */
  function TokenLabel(token: Option<int>): Label
  {
    match token
    case None => Blank
    case Some(v) => Number(v)
  }

  /** The text content of a hex with this label. */
  function LabelText(caption: Label): string
  {
    match caption
    case Dashes => "--"
    case Blank => ""
    case Number(v) => NumberText(v)
  }

  /** The hex generateBoard builds for entry i of the reply while `selected` is the selected number. */
  function HexCell(data: BoardState, i: nat, selected: int): Cell
    requires i < |data.resources|
  {
    var id := data.resources[i];
    var token := TokenAt(data.numbers, i);
    Cell(ResourceClass(id),
         if id == DesertId then Dashes else TokenLabel(token),
         Paint(selected != 0 && token == Some(selected)))
  }

  /** The `count` hexes from flat index `first` on, in order. */
  function HexRun(data: BoardState, selected: int, first: nat, count: nat): (cells: seq<Cell>)
    requires count == 0 || first + count <= |data.resources|
    ensures |cells| == count
    ensures forall c :: 0 <= c < count ==> cells[c] == HexCell(data, first + c, selected)
  {
    if count == 0 then []
    else HexRun(data, selected, first, count - 1) + [HexCell(data, first + count - 1, selected)]
  }

  /** Row `row` of the board: its offset and the hexes from Start(row) on, as many as it gets. */
  function LayoutRow(data: BoardState, selected: int, row: nat): Row
    requires row < |RowSizes(data.extension)|
  {
    var sizes := RowSizes(data.extension);
    Row(RowOffset(data.extension, row),
        HexRun(data, selected, Start(sizes, row), Filled(|data.resources|, sizes, row)))
  }

  /** A row built hex by hex from index Start(row) on, stopped at the row size or at the end
      of the arrays, is LayoutRow. */
  lemma LayoutRowFrom(data: BoardState, selected: int, row: nat, offset: Offset, cells: seq<Cell>)
    requires row < |RowSizes(data.extension)|
    requires offset == RowOffset(data.extension, row)
    requires var first := Min(|data.resources|, Start(RowSizes(data.extension), row));
      first + |cells| <= |data.resources| &&
      (|cells| == RowSizes(data.extension)[row] || first + |cells| == |data.resources|) &&
      |cells| <= RowSizes(data.extension)[row] &&
      forall c :: 0 <= c < |cells| ==> cells[c] == HexCell(data, first + c, selected)
    ensures Row(offset, cells) == LayoutRow(data, selected, row)
  {
    var sizes := RowSizes(data.extension);
    var n := |data.resources|;
    var f := Filled(n, sizes, row);
    assert |cells| == f;
    if f != 0 {
      assert Min(n, Start(sizes, row)) == Start(sizes, row);
      HexRunOf(data, selected, Start(sizes, row), cells);
    }
  }

  /** Cells that are the hexes from index `first` on, one by one, are that run of hexes. */
  lemma HexRunOf(data: BoardState, selected: int, first: nat, cells: seq<Cell>)
    requires first + |cells| <= |data.resources|
    requires forall c :: 0 <= c < |cells| ==> cells[c] == HexCell(data, first + c, selected)
    ensures cells == HexRun(data, selected, first, |cells|)
  {
    var run := HexRun(data, selected, first, |cells|);
    assert forall c :: 0 <= c < |cells| ==> cells[c] == run[c];
  }

  /** The first k rows of the board. */
  function LayoutRows(data: BoardState, selected: int, k: nat): (rows: seq<Row>)
    requires k <= |RowSizes(data.extension)|
    ensures |rows| == k
    ensures forall r :: 0 <= r < k ==> rows[r] == LayoutRow(data, selected, r)
  {
    if k == 0 then [] else LayoutRows(data, selected, k - 1) + [LayoutRow(data, selected, k - 1)]
  }

  /** The whole board: one row per row size, filled row-major from the flat arrays. */
  function Layout(data: BoardState, selected: int): seq<Row>
  {
    LayoutRows(data, selected, |RowSizes(data.extension)|)
  }

  /** The number of hexes on a board. */
  function CellCount(rows: seq<Row>): nat
  {
    if rows == [] then 0 else CellCount(rows[..|rows| - 1]) + |rows[|rows| - 1].cells|
  }

  /** generateBoard: walks the flat arrays with one running index, row by row, and stops filling
      once the arrays run out while still emitting the remaining, now empty, rows. */
  method GenerateBoard(data: BoardState, selected: int) returns (board: seq<Row>)
    ensures board == Layout(data, selected)
  {
    var rowSizes := RowSizes(data.extension);
    var n := |data.resources|;
    var hexIndex := 0;
    board := [];
    for row := 0 to |rowSizes|
      invariant hexIndex == Min(n, Start(rowSizes, row))
      invariant |board| == row
      invariant forall r :: 0 <= r < row ==> board[r] == LayoutRow(data, selected, r)
    {
      var offset := NoOffset;
      if data.extension && row < 3 {
        offset := OffsetLeft;
      } else if data.extension && row >= 3 {
        offset := OffsetRight;
      }
      ghost var first := hexIndex;
      var cells: seq<Cell> := [];
      for col := 0 to rowSizes[row]
        invariant hexIndex == first + col <= n
        invariant |cells| == col
        invariant forall c :: 0 <= c < col ==> cells[c] == HexCell(data, first + c, selected)
      {
        if hexIndex >= n {
          break;
        }
        var resourceId := data.resources[hexIndex];
        var token := TokenAt(data.numbers, hexIndex);
        var caption := if resourceId == DesertId then Dashes else TokenLabel(token);
        var colour := if selected != 0 && token == Some(selected) then Colour(true, false) else Colour(false, true);
        cells := cells + [Cell(ResourceClass(resourceId), caption, colour)];
        hexIndex := hexIndex + 1;
      }
      LayoutRowFrom(data, selected, row, offset, cells);
      board := board + [Row(offset, cells)];
    }
  }

  /** One row's structure: its offset class, never more hexes than its size, empty once the
      arrays are exhausted, and hex c taken from flat index Start(row) + c. */
  lemma LayoutRowShape(data: BoardState, selected: int, row: nat)
    requires row < |RowSizes(data.extension)|
    ensures var sizes := RowSizes(data.extension);
      var cells := LayoutRow(data, selected, row).cells;
      LayoutRow(data, selected, row).offset == RowOffset(data.extension, row) &&
      |cells| <= sizes[row] &&
      (|data.resources| <= Start(sizes, row) ==> cells == []) &&
      forall c :: 0 <= c < |cells| ==>
        Start(sizes, row) + c < |data.resources| &&
        cells[c] == HexCell(data, Start(sizes, row) + c, selected)
  {
    assert |LayoutRow(data, selected, row).cells| == Filled(|data.resources|, RowSizes(data.extension), row);
  }

  /** The first k rows hold min(resources.length, Start(k)) hexes. */
  lemma {:induction false} LayoutRowsCount(data: BoardState, selected: int, k: nat)
    requires k <= |RowSizes(data.extension)|
    ensures CellCount(LayoutRows(data, selected, k)) == Min(|data.resources|, Start(RowSizes(data.extension), k))
  {
    if k > 0 {
      var rows := LayoutRows(data, selected, k);
      LayoutRowsCount(data, selected, k - 1);
      assert rows[..k - 1] == LayoutRows(data, selected, k - 1);
      assert |rows[k - 1].cells| == Filled(|data.resources|, RowSizes(data.extension), k - 1);
    }
  }

  /** Truncation: the board holds exactly min(resources.length, capacity) hexes. */
  lemma LayoutTotal(data: BoardState, selected: int)
    ensures CellCount(Layout(data, selected)) == Min(|data.resources|, Capacity(data.extension))
  {
    LayoutRowsCount(data, selected, |RowSizes(data.extension)|);
  }

  lemma {:induction false} StartMonotone(sizes: seq<nat>, a: nat, b: nat)
    requires a <= b <= |sizes|
    ensures Start(sizes, a) <= Start(sizes, b)
    decreases b
  {
    if a < b {
      StartMonotone(sizes, a, b - 1);
    }
  }

  /** The reply with every entry beyond the board's capacity dropped. */
  function Truncated(data: BoardState): BoardState
  {
    var k := Min(|data.resources|, Capacity(data.extension));
    data.(resources := data.resources[..k], numbers := data.numbers[..Min(k, |data.numbers|)])
  }

  /** Below the kept prefix, the truncated reply yields the same hexes. */
  lemma TruncatedHex(data: BoardState, i: nat, selected: int)
    requires i < |Truncated(data).resources|
    ensures i < |data.resources|
    ensures HexCell(Truncated(data), i, selected) == HexCell(data, i, selected)
  {
    var short := Truncated(data);
    assert short.resources[i] == data.resources[i];
    assert TokenAt(short.numbers, i) == TokenAt(data.numbers, i);
  }

  /** Each row of the truncated reply is the row of the full reply. */
  lemma TruncatedRow(data: BoardState, selected: int, row: nat)
    requires row < |RowSizes(data.extension)|
    ensures LayoutRow(Truncated(data), selected, row) == LayoutRow(data, selected, row)
  {
    var short := Truncated(data);
    var sizes := RowSizes(data.extension);
    StartMonotone(sizes, row + 1, |sizes|);
    var f := Filled(|data.resources|, sizes, row);
    assert Filled(|short.resources|, sizes, row) == f;
    var kept := HexRun(short, selected, Start(sizes, row), f);
    var full := HexRun(data, selected, Start(sizes, row), f);
    forall c | 0 <= c < f
      ensures kept[c] == full[c]
    {
      TruncatedHex(data, Start(sizes, row) + c, selected);
    }
    assert kept == full;
  }

  /** Entries beyond the layout are ignored: dropping them yields the same board. */
  lemma LayoutIgnoresSurplus(data: BoardState, selected: int)
    ensures Layout(Truncated(data), selected) == Layout(data, selected)
  {
    var before, after := Layout(Truncated(data), selected), Layout(data, selected);
    forall r | 0 <= r < |before|
      ensures before[r] == after[r]
    {
      TruncatedRow(data, selected, r);
    }
  }

  /** The rule updateBoardColors applies to a hex's text: the robber number lights every hex,
      any other number lights the hexes whose text is that number. */
  predicate Highlighted(text: string, selected: int)
  {
    selected == Robber || text == NumberText(selected)
  }

  /** A hex after updateBoardColors: only its colour classes change. */
  function Repaint(cell: Cell, selected: int): Cell
  {
    cell.(colour := Paint(Highlighted(LabelText(cell.caption), selected)))
  }

  /** `after` is `before` with every hex repainted for `selected`, and nothing else changed. */
  predicate Recoloured(before: seq<Row>, after: seq<Row>, selected: int)
  {
    |after| == |before| &&
    forall r :: 0 <= r < |before| ==>
      after[r].offset == before[r].offset &&
      |after[r].cells| == |before[r].cells| &&
      forall c :: 0 <= c < |before[r].cells| ==> after[r].cells[c] == Repaint(before[r].cells[c], selected)
  }

  /** Recolouring fixes the board: two recolourings of the same rows agree, and recolouring a
      recoloured board again for the same number changes nothing, since a hex's colour depends
      only on its text and the number. */
  lemma {:induction false} RecolourIdempotent(before: seq<Row>, once: seq<Row>, twice: seq<Row>, selected: int)
    requires Recoloured(before, once, selected)
    requires Recoloured(once, twice, selected) || Recoloured(before, twice, selected)
    ensures twice == once
  {
    forall r | 0 <= r < |once|
      ensures twice[r] == once[r]
    {
      assert |twice[r].cells| == |once[r].cells|;
      forall c | 0 <= c < |once[r].cells|
        ensures twice[r].cells[c] == once[r].cells[c]
      {
        var hex := before[r].cells[c];
        assert Repaint(Repaint(hex, selected), selected) == Repaint(hex, selected);
      }
      assert twice[r].cells == once[r].cells;
    }
  }

  /** A laid-out hex shows the text of number s exactly when it is not a desert and its token is s. */
  lemma HexTextMatches(data: BoardState, i: nat, selected: int, s: int)
    requires i < |data.resources|
    ensures LabelText(HexCell(data, i, selected).caption) == NumberText(s) <==>
      data.resources[i] != DesertId && TokenAt(data.numbers, i) == Some(s)
  {
    NumberTextIsNotPlaceholder(s);
    match TokenAt(data.numbers, i)
    case None =>
    case Some(v) => NumberTextInjective(v, s);
  }

  /** After recolouring, a laid-out hex is red (and not black) exactly when s is the robber number
      or the hex is not a desert and carries token s; otherwise it is black and not red. */
  lemma RecolourOfLaidOutHex(data: BoardState, i: nat, selected: int, s: int)
    requires i < |data.resources|
    ensures Repaint(HexCell(data, i, selected), s).colour ==
      Paint(s == Robber || (data.resources[i] != DesertId && TokenAt(data.numbers, i) == Some(s)))
  {
    HexTextMatches(data, i, selected, s);
  }

  /** Where the colour generateBoard gives a hex differs from the one updateBoardColors then gives it
      for the same selected number: on a robber roll for hexes whose token is not 7, for selected
      number 0 on non-desert hexes with token 0, and otherwise on a desert whose hidden token is
      the selected number. */
  lemma InitialColourDiverges(data: BoardState, i: nat, s: int)
    requires i < |data.resources|
    ensures var cell := HexCell(data, i, s);
      var token := TokenAt(data.numbers, i);
      cell.colour != Repaint(cell, s).colour <==>
        (s == Robber && token != Some(Robber)) ||
        (s == 0 && data.resources[i] != DesertId && token == Some(0)) ||
        (s != 0 && s != Robber && data.resources[i] == DesertId && token == Some(s))
  {
    RecolourOfLaidOutHex(data, i, s, s);
  }

  /** The example reply: a classic board whose desert hides token 0, followed by two sixes,
      with 6 selected. */
  function SixesReply(): (data: BoardState)
    ensures |data.resources| == 3 && !data.extension
  {
    BoardState([5, 0, 1], [0, 6, 6], false, false, 6, false, true, true, true, true)
  }

  /** The first row of the example: the placeholder in black and both sixes in red. */
  function SixesRow(): seq<Cell>
  {
    [Cell(Desert, Dashes, Paint(false)), Cell(Sheep, Number(6), Paint(true)), Cell(Wood, Number(6), Paint(true))]
  }

  /** The example's first row is laid out as SixesRow, and recolouring for 6 leaves it as it is. */
  lemma SixesFirstRow()
    ensures LayoutRow(SixesReply(), 6, 0).cells == SixesRow()
    ensures forall c :: 0 <= c < 3 ==> Repaint(SixesRow()[c], 6) == SixesRow()[c]
  {
    var data, row := SixesReply(), SixesRow();
    assert Filled(3, RowSizes(false), 0) == 3;
    assert HexCell(data, 0, 6) == row[0];
    assert HexCell(data, 1, 6) == row[1];
    assert HexCell(data, 2, 6) == row[2];
    HexRunOf(data, 6, 0, row);
    assert NumberText(6) == "6";
    NumberTextIsNotPlaceholder(6);
  }

  /** The example board: its first row shows the placeholder in black and both sixes in red, before
      and after recolouring; the other four rows are empty. */
  lemma DesertAndTwoSixes()
    ensures var board := Layout(SixesReply(), 6);
      |board| == 5 && board[0].cells == SixesRow() &&
      (forall c :: 0 <= c < 3 ==> Repaint(SixesRow()[c], 6) == SixesRow()[c]) &&
      forall r :: 1 <= r < 5 ==> board[r].cells == []
  {
    var data := SixesReply();
    var sizes := RowSizes(false);
    SixesFirstRow();
    assert Start(sizes, 1) == 3;
    forall r | 1 <= r < 5
      ensures Layout(data, 6)[r].cells == []
    {
      StartMonotone(sizes, 1, r);
      assert Filled(3, sizes, r) == 0;
    }
  }
}

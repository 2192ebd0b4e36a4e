# smart-catan board page, modelled in Dafny

The smart-catan web page polls its server for the state of a Catan board. It draws the board as
rows of hexagons and lets the players pick or roll the number that lights hexes up. This project
models the deterministic core of the page script `data/js/scripts.js`:

- laying a board reply out into rows of hexes (`generateBoard`, `resourceToClass`);
- recolouring hexes and number buttons for the selected number (`updateBoardColors`,
  `updateNumberButtonColors`);
- reconciling the page's controls with the client's mirror of the server state
  (`updateStates`);
- the reply handlers of the polling loop and of the buttons (`setClassic`, `setExtension`,
  `startGame`, `selectNumber`, `rollDice`).

The DOM is replaced by a view model:
- a board is a sequence of `Row`s, each with an optional offset class and a sequence of `Cell`s;
- a cell carries its terrain class, its caption (a token, the desert placeholder `--`, or nothing)
  and its `red`/`black` classes;
- buttons and checkboxes are fields of the class `Client.Page`, next to the script's globals
  (`gameStarted`, `extension`, `manualDice`, `currentSelectedNumber`).

The modules:

- `Decimal`: JavaScript's `String(n)` for integers, and the fact that equal texts mean equal
  numbers. The page compares a hex's text with `String(selectedNumber)`, so this fact turns text
  comparisons into number comparisons.
- `Board`: the reply datatype `BoardState`, row sizes and offsets, and the layout specification
  `Layout`. It also holds `GenerateBoard`, the imperative nested loop of `generateBoard`, proved
  equal to `Layout`, and the recolour rule `Repaint`/`Recoloured` with its lemmas.
- `Client`: the class `Page`. Its methods change fields in place. `UpdateStates` establishes
  `Reconciled`: the board is the recoloured layout of the reply, the controls follow the mirror,
  the checkboxes follow the reply, and the keypad is recoloured.
- `Findings`: `generateBoard` as written, for resource ids outside 0..5 (see below).

Server replies are inputs to the methods. The requests a handler sends are returned as strings
where the text depends on the input (`SelectNumber`, `StartGame`).

## Model

| member | source | states |
|---|---|---|
| Decimal.NatText | data/js/scripts.js:329 | The decimal text of a natural: at least one digit, only digits, and a leading 0 only for zero. What the digits spell is stated by `NatTextValue` |
| Decimal.NumberText | data/js/scripts.js:329 | `String(n)` of an integer: it starts with a minus sign exactly when n is negative, and a digit follows the sign. The value the text spells is stated by `NumberTextValue` |
| Decimal.NatTextValue | data/js/scripts.js:329 | The digits of n, read most significant first, spell n: the text is n's decimal representation |
| Decimal.NumberTextValue | data/js/scripts.js:329 | `String(n)` of a negative n is a minus sign followed by the decimal digits of -n; of any other n, the decimal digits of n |
| Decimal.NumberTextInjective | data/js/scripts.js:329 | Two integers have the same text if and only if they are equal, so comparing texts is comparing numbers |
| Decimal.NumberTextIsNotPlaceholder | data/js/scripts.js:162 | No number's text is the desert placeholder `--` or the empty text, so neither ever matches a selected number |
| Board.ResourceClassTable | data/js/scripts.js:184-194 | Ids 0..5 map to sheep, wood, wheat, brick, ore and desert. Every other id maps to the empty class name. Only id 5 is the desert |
| Board.RowSizes | data/js/scripts.js:130-132 | Six rows for the extension board and five for the classic one, none empty, together 30 or 19 hexes |
| Board.Filled | data/js/scripts.js:150-152 | A row receives no more hexes than its size, and only hexes whose index is below the number of resources |
| Board.HexRun | data/js/scripts.js:150-174 | The run of hexes from a flat index: its length, and hex c is the hex at index first + c |
| Board.LayoutRows | data/js/scripts.js:136-180 | The first k rows of the layout: k rows, row r being that row's offset and hexes |
| Board.GenerateBoard | data/js/scripts.js:125-181 | The nested row/column loop with its early `break` builds exactly `Layout(data, selected)` |
| Board.LayoutRowShape | data/js/scripts.js:142-174 | Each row has its offset class (left for extension rows 0-2, right for 3-5, none on the classic board) and at most its size in hexes. It is empty once the resources are used up, and hex c comes from flat index Start(row) + c |
| Board.LayoutRowsCount | data/js/scripts.js:136-152 | The first k rows hold min(number of resources, Start(k)) hexes |
| Board.LayoutTotal | data/js/scripts.js:130-152 | The board holds exactly min(number of resources, capacity) hexes: 19 on the classic board, 30 on the extension board |
| Board.LayoutIgnoresSurplus | data/js/scripts.js:151-155 | Resources and numbers beyond the capacity never reach the page: the truncated reply gives the same board |
| Board.RecolourIdempotent | data/js/scripts.js:319-340 | Two recolourings of the same board for the same number agree, and recolouring again changes nothing |
| Board.HexTextMatches | data/js/scripts.js:162 | A laid-out hex shows the text of s if and only if it is not a desert and its token is s |
| Board.RecolourOfLaidOutHex | data/js/scripts.js:319-340 | After `updateBoardColors(s)`, a hex is red and not black exactly when s is 7, or the hex is not a desert and its token is s. Otherwise it is black and not red |
| Board.InitialColourDiverges | data/js/scripts.js:165-169 | `generateBoard`'s colour and `updateBoardColors`' colour for the same number differ exactly in three cases: on a 7 for tokens other than 7; for number 0 on non-desert hexes with token 0; otherwise on a desert whose hidden token is the number |
| Board.SixesFirstRow | data/js/scripts.js:158-169 | On the example reply (a desert hiding token 0, then two sixes, 6 selected), the first row is the black placeholder and two red sixes, and recolouring for 6 keeps them |
| Board.DesertAndTwoSixes | data/js/scripts.js:125-181 | The example board has five rows: the first as above, the other four empty |
| Client.KeypadRecolourIdempotent | data/js/scripts.js:343-354 | Two keypad recolourings for the same number agree, and a second recolouring changes nothing |
| Client.StandardKeypadHighlight | data/js/scripts.js:343-365 | On the keypad 2-6, 8-12, exactly the button showing the selected number is red and the others are black. A 7 leaves every small button black |
| Client.CaptionTextInjective | data/js/scripts.js:46-81 | The captions stand one to one for the texts the script writes ("Classic", "Shuffle", "Extension", "Start Game", "End Game"): two captions show the same text only if they are the same caption |
| Client.Page.constructor | data/js/scripts.js:2-10 | The mirror starts with no game, the classic board, manual dice and no selected number |
| Client.Page.UpdateBoardColors | data/js/scripts.js:319-340 | Every hex gets its colour from the recolour rule. Captions, terrains, row offsets and row lengths are unchanged |
| Client.Page.UpdateNumberButtonColors | data/js/scripts.js:343-365 | Each small button is red exactly when its text is the selected number's text, with its text unchanged. The big 7 is red exactly on a 7 |
| Client.Page.Recolour | data/js/scripts.js:89-91 | Both recolourings for one number: board and keypad as above |
| Client.Page.ShowModeLabels | data/js/scripts.js:45-52 | The mode buttons read Classic/Shuffle on the extension board and Shuffle/Extension on the classic one |
| Client.Page.DisableOptions | data/js/scripts.js:63-67 | The five option checkboxes become disabled (or enabled) together, keeping their ticks |
| Client.Page.LockControls | data/js/scripts.js:53-82 | While the game runs: the dice button shows; mode, settings and option controls are disabled; the start button reads End Game; the keypad shows with manual dice and otherwise keeps its display. Without a game: keypad and dice are hidden, everything is enabled, and the start button reads Start Game |
| Client.Page.MirrorSettings | data/js/scripts.js:83-87 | Each checkbox is ticked exactly when the reply's setting is on, and its disabled state is kept |
| Client.Page.ShowControls | data/js/scripts.js:45-87 | The labels, the lock state and the ticks together, as `ControlsShown` |
| Client.Page.UpdateStates | data/js/scripts.js:40-92 | The page is `Reconciled` with the reply. The board is the layout for the mirror's selected number, recoloured. The controls follow the mirror and the checkboxes follow the reply. The keypad is recoloured. The mirror is untouched |
| Client.Page.Poll | data/js/scripts.js:27-38 | The mirror takes the reply's game state, mode, selected number and dice mode, and the page is reconciled with the reply |
| Client.Page.SetClassic | data/js/scripts.js:95-105 | A reply with the extension board changes nothing. Otherwise the mirror switches to the classic board and the page is reconciled |
| Client.Page.SetExtension | data/js/scripts.js:108-118 | A reply with the classic board changes nothing. Otherwise the mirror switches to the extension board and the page is reconciled |
| Client.Page.StartGame | data/js/scripts.js:197-218 | It asks /endgame if the mirror says a game runs and /startgame otherwise. Both paths take the reply's game state; only ending takes the reply's selected number. The page is reconciled |
| Client.Page.SelectNumber | data/js/scripts.js:221-231 | The request is `/selectNumber?value=` followed by n. The selected number becomes the reply, and board and keypad are recoloured for it without being rebuilt |
| Client.Page.RollDice | data/js/scripts.js:235-245 | The selected number becomes the rolled number, and board and keypad are recoloured for it |
| Findings.FirstUnclassedRow | data/js/scripts.js:159 | The first row holding a hex with the empty class name: no earlier row holds one, and the row found does |
| Findings.UnknownResourceAborts | data/js/scripts.js:159 | For resource id 9 on the classic board, the corrected layout shows one unclassed hex with token 4, while the code as written throws before appending any row |
| Findings.KnownIdsClassed | data/js/scripts.js:184-194 | With only ids 0..5 laid out, no row holds an unclassed hex |
| Findings.UnknownIdUnclassed | data/js/scripts.js:184-194 | An unknown id at a laid-out index makes the row holding that index unclassed |
| Findings.RenderAsWrittenSucceeds | data/js/scripts.js:125-194 | The code as written renders the whole board if and only if every laid-out resource id is in 0..5 |

## Left out

- `fetch`, `setInterval` and the `.catch` handlers are not modelled: the network, the timer and console logging. Each handler is modelled from the moment its reply arrives, and a failed request changes nothing.
- `Number(data)` on the replies of `/selectNumber` and `/rollDice` is not modelled: the reply is taken as an integer. A text that is not a number (NaN) is not modelled.
- The settings listeners, the settings modal and the page-load wiring (`loadElementValues`, `addSettingsListeners`) are not modelled. They only send requests or toggle a modal's display.
- The globals `eight_six_canTouch`, `two_twelve_canTouch`, `sameNumbers_canTouch` and `sameResource_canTouch` are not modelled, because the script never reads them.
- The initial HTML is not modelled. The keypad's button texts come from the markup and enter as a parameter of `Page`. `StandardKeypadHighlight` assumes the texts 2-6 and 8-12 that the script's comment names.
- Decimal.NumberText: covers integers only. The exponent notation `String(n)` uses from 1e21 on is not modelled, and neither are fractional tokens.
- Client.Page.UpdateBoardColors: the `trim()` of the hex text is not modelled. The captions the model produces carry no white space.
- Client.Page.UpdateStates: uses the corrected `GenerateBoard`. The exception the code as written raises for unknown resource ids is modelled for `generateBoard`'s own outcome only (`Findings`). The model does not capture that this exception also skips the labels, controls, checkboxes and recolouring of `updateStates`, after the poll or the mode handlers have already overwritten the mirror.
- Element identity is not modelled: `querySelectorAll('.hex')` is taken to return exactly the board's hexes, in order.

## Findings

| source | as written | input that shows it | evidently intended | confidence | as-written member | corrected member |
|---|---|---|---|---|---|---|
| data/js/scripts.js:159 | `hex.classList.add('hex', resourceToClass(resourceId))` passes the empty string that `resourceToClass` returns for an unknown id, and `DOMTokenList.add` throws a SyntaxError on an empty token. The rows before the hex stay on the page and the rest of the board is not drawn | reply `{resources: [9], numbers: [4], extension: false}`: no row is drawn | a hex with no resource class, showing its token | not executed | Findings.UnknownResourceAborts | Board.GenerateBoard |
